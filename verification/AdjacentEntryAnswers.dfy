/** The decision of an adjacent selection, said of the facts of the segment alone: which of them
    count for the strategy, and what each part of the answer takes from them. */
module AdjacentEntryAnswers {
  import opened Options
  import opened Texts
  import opened AdjacentEntry
  import opened AdjacentEntryTheorems
  import opened AdjacentEntryReady

  // ---------------------------------------------------------------- which facts count

  /** One letter is the other, or the other in its other case. */
  ghost predicate SameLetter(c: char, d: char) {
    || c == d
    || ('a' <= c <= 'z' && 'A' <= d <= 'Z' && c - 'a' == d - 'A')
    || ('A' <= c <= 'Z' && 'a' <= d <= 'z' && c - 'A' == d - 'a')
  }

  ghost predicate SameUpToCase(a: string, b: string) {
    |a| == |b| && forall i | 0 <= i < |a| :: SameLetter(a[i], b[i])
  }

  /** A fragment with an id, of the strategy's symbol and side up to case and outer spaces. */
  ghost predicate Counts(f: Fact, s: Strategy) {
    && f.kind == Fragment && f.fragmentId.Some?
    && SameUpToCase(Strip(f.symbol), Strip(s.symbol))
    && SameUpToCase(Strip(f.side), Strip(s.side))
  }

  lemma UpperIff(a: string, b: string)
    ensures Upper(a) == Upper(b) <==> SameUpToCase(a, b)
  {
    if Upper(a) == Upper(b) {
      forall i | 0 <= i < |a| ensures SameLetter(a[i], b[i]) {
        assert Upper(a)[i] == Upper(b)[i];
      }
    }
  }

  lemma LowerIff(a: string, b: string)
    ensures Lower(a) == Lower(b) <==> SameUpToCase(a, b)
  {
    if Lower(a) == Lower(b) {
      forall i | 0 <= i < |a| ensures SameLetter(a[i], b[i]) {
        assert Lower(a)[i] == Lower(b)[i];
      }
    }
  }

  lemma CountsIff(f: Fact, s: Strategy)
    ensures Matching(f, s) <==> Counts(f, s)
  {
    UpperIff(Strip(f.symbol), Strip(s.symbol));
    LowerIff(Strip(f.side), Strip(s.side));
  }

  lemma SelectedIff(segment: seq<Fact>, s: Strategy, f: Fact)
    ensures f in Selected(segment, s) <==> f in segment && Counts(f, s)
  {
    CountsIff(f, s);
  }

  /** Source order: the time first, a missing one before all others, then the message, then the raw row. */
  lemma SourceOrderIs(f: Fact, g: Fact, strategy: Strategy)
    ensures Before(KeyOf(f), KeyOf(g)) <==>
            var s := if f.postedAt.Some? then f.postedAt.value else 0;
            var t := if g.postedAt.Some? then g.postedAt.value else 0;
            s < t || (s == t && f.message < g.message) || (s == t && f.message == g.message && f.raw < g.raw)
    ensures AtMost(KeyOf(f), KeyOf(g)) <==> !Before(KeyOf(g), KeyOf(f))
    ensures f.postedAt == strategy.postedAt && f.message == strategy.message && f.raw == strategy.raw ==>
              KeyOf(f) == StrategyKey(strategy)
  {
  }

  /** The five kinds that end a segment. */
  ghost predicate EndsSegment(f: Fact) {
    f.kind in {CompleteEntry, CancelEntry, OppositeEntry, Replacement, ExpiredAdjacency}
  }

  /** A boundary before the strategy, no later than the cutoff. */
  ghost predicate LeftBoundary(s: Strategy, cutoff: SourceKey, b: Fact) {
    EndsSegment(b) && !Before(cutoff, KeyOf(b)) && Before(KeyOf(b), StrategyKey(s))
  }

  ghost predicate RightBoundary(s: Strategy, cutoff: SourceKey, b: Fact) {
    EndsSegment(b) && !Before(cutoff, KeyOf(b)) && Before(StrategyKey(s), KeyOf(b))
  }

  ghost predicate NearestRight(s: Strategy, facts: seq<Fact>, cutoff: SourceKey, b: Fact) {
    && RightBoundary(s, cutoff, b)
    && forall c | c in facts && RightBoundary(s, cutoff, c) :: !Before(KeyOf(c), KeyOf(b))
  }

  /** A fact is in the segment when it is no later than the cutoff, not at the strategy's own place, and no
      boundary stands at it or between it and the strategy. */
  lemma SegmentHolds(s: Strategy, facts: seq<Fact>, cutoff: SourceKey, f: Fact)
    ensures f in BoundedSegment(s, facts, cutoff).0 <==>
            && f in facts && !Before(cutoff, KeyOf(f)) && KeyOf(f) != StrategyKey(s)
            && (forall b | b in facts && LeftBoundary(s, cutoff, b) :: Before(KeyOf(b), KeyOf(f)))
            && (forall b | b in facts && RightBoundary(s, cutoff, b) :: Before(KeyOf(f), KeyOf(b)))
  {
    SegmentIsExactly(s, facts, cutoff);
    ShieldedIff(s, facts, cutoff, KeyOf(f));
    NotLater(KeyOf(f), cutoff);
  }

  lemma NotLater(a: SourceKey, b: SourceKey)
    ensures AtMost(a, b) <==> !Before(b, a)
  {
  }

  lemma ShieldedIff(s: Strategy, facts: seq<Fact>, cutoff: SourceKey, key: SourceKey)
    ensures !Shielded(s, facts, cutoff, key) <==>
            && (forall b | b in facts && LeftBoundary(s, cutoff, b) :: Before(KeyOf(b), key))
            && (forall b | b in facts && RightBoundary(s, cutoff, b) :: Before(key, KeyOf(b)))
  {
    forall b | b in facts
      ensures HardBoundary(b.kind) <==> EndsSegment(b)
      ensures AtMost(KeyOf(b), cutoff) <==> !Before(cutoff, KeyOf(b))
      ensures AtMost(key, KeyOf(b)) <==> !Before(KeyOf(b), key)
      ensures AtMost(KeyOf(b), key) <==> !Before(key, KeyOf(b))
    {
      NotLater(KeyOf(b), cutoff);
      NotLater(key, KeyOf(b));
      NotLater(KeyOf(b), key);
    }
  }

  ghost function IsLeft(s: Strategy, cutoff: SourceKey): Fact -> bool {
    (f: Fact) => LeftBoundary(s, cutoff, f)
  }

  ghost function IsNearestRight(s: Strategy, facts: seq<Fact>, cutoff: SourceKey): Fact -> bool {
    (f: Fact) => NearestRight(s, facts, cutoff, f)
  }

  /** A list sorted and filtered three times over is filtered once and sorted. */
  lemma FilteredOnce(facts: seq<Fact>, p: Fact -> bool, q: Fact -> bool, r: Fact -> bool, all: Fact -> bool)
    requires forall f :: all(f) == (p(f) && q(f) && r(f))
    ensures Filter(Filter(Sort(Filter(facts, p)), q), r) == Sort(Filter(facts, all))
  {
    var both := (f: Fact) => q(f) && r(f);
    FilterTwice(Sort(Filter(facts, p)), q, r, both);
    FilterSort(Filter(facts, p), both);
    FilterTwice(facts, p, both, all);
  }

  lemma NearestIs(s: Strategy, facts: seq<Fact>, cutoff: SourceKey, rights: seq<Fact>)
    requires forall f :: f in rights <==> f in facts && RightBoundary(s, cutoff, f)
    ensures rights == [] ==> forall f | f in facts :: !NearestRight(s, facts, cutoff, f)
    ensures rights != [] ==> forall f | f in facts ::
      NearestRight(s, facts, cutoff, f) <==> RightBoundary(s, cutoff, f) && KeyOf(f) == Earliest(rights)
  {
    forall f | f in facts && RightBoundary(s, cutoff, f)
      ensures rights != [] && (NearestRight(s, facts, cutoff, f) <==> KeyOf(f) == Earliest(rights))
    {
      assert f in rights;
      var e :| e in rights && KeyOf(e) == Earliest(rights);
      assert AtMost(Earliest(rights), KeyOf(f));
    }
  }

  /** The boundary evidence: every boundary before the strategy, in source order, then the nearest after it. */
  lemma EvidenceIs(s: Strategy, facts: seq<Fact>, cutoff: SourceKey)
    ensures BoundedSegment(s, facts, cutoff).1 ==
            Raws(Sort(Filter(facts, IsLeft(s, cutoff)))) + Raws(Sort(Filter(facts, IsNearestRight(s, facts, cutoff))))
  {
    var here := StrategyKey(s);
    var isRight := (f: Fact) => RightBoundary(s, cutoff, f);
    var eligible := Sort(Filter(facts, UpTo(cutoff)));
    var rights := Filter(Filter(eligible, LaterThan(here)), IsHard());
    FilteredOnce(facts, UpTo(cutoff), EarlierThan(here), IsHard(), IsLeft(s, cutoff));
    FilteredOnce(facts, UpTo(cutoff), LaterThan(here), IsHard(), isRight);
    SortIsSorted(Filter(facts, isRight));
    assert rights == Sort(Filter(facts, isRight));
    forall f ensures f in rights <==> f in facts && RightBoundary(s, cutoff, f) {
      assert f in rights <==> f in Filter(facts, isRight);
    }
    NearestIs(s, facts, cutoff, rights);
    if rights == [] {
      FilterNone(facts, IsNearestRight(s, facts, cutoff));
    } else {
      FilterSort(Filter(facts, isRight), KeyIs(Earliest(rights)));
      FilterTwice(facts, isRight, KeyIs(Earliest(rights)), IsNearestRight(s, facts, cutoff));
    }
  }

  ghost function Total(values: seq<real>): real {
    if values == [] then 0.0 else Total(values[..|values| - 1]) + values[|values| - 1]
  }

  lemma {:induction false} SumSnoc(values: seq<real>, v: real)
    ensures Sum(values + [v]) == Sum(values) + v
  {
    if values == [] {
      assert values + [v] == [v] && [v][1..] == [];
    } else {
      assert (values + [v])[1..] == values[1..] + [v];
      SumSnoc(values[1..], v);
    }
  }

  lemma {:induction false} SumIsTotal(values: seq<real>)
    ensures Sum(values) == Total(values)
  {
    if values != [] {
      var init, v := values[..|values| - 1], values[|values| - 1];
      SumIsTotal(init);
      SumSnoc(init, v);
      assert values == init + [v];
    }
  }

  ghost predicate GivesMultiplier(f: Fact, m: real) {
    f.payload.RiskMultiplier? && f.payload.value == Some(m)
  }

  ghost predicate GivesAllocations(f: Fact, shares: seq<real>) {
    && f.payload.LegAllocation? && f.payload.values.Some? && |f.payload.values.value| == |shares|
    && forall k | 0 <= k < |shares| :: f.payload.values.value[k] == Some(shares[k])
  }

  /** An entry price stands for the whole list; without one the list is offered, if it is a list. */
  ghost predicate GivesPrice(f: Fact, v: real) {
    && f.payload.SupplementalEntry? && v > 0.0
    && match f.payload.entryPrice
       case Price(given) => given == Some(v)
       case NoPrice => f.payload.prices.Some? && Some(v) in f.payload.prices.value
  }

  /** The counting facts of a segment agree on one multiplier, one list of shares and these prices. */
  ghost predicate AgreeOn(segment: seq<Fact>, s: Strategy, m: real, shares: seq<real>, prices: seq<real>) {
    && 0.0 < m <= 1.0
    && (forall f | f in segment && Counts(f, s) && f.payload.RiskMultiplier? :: GivesMultiplier(f, m))
    && (shares == [] || ((forall v | v in shares :: v > 0.0) && Total(shares) == 1.0))
    && (forall f | f in segment && Counts(f, s) && f.payload.LegAllocation? && f.payload.values.Some? ::
          shares != [] && GivesAllocations(f, shares))
    && |prices| <= 3
    && (forall f, v | f in segment && Counts(f, s) && GivesPrice(f, v) :: v in prices)
  }

  lemma {:induction false} ValuesAre(values: seq<Parsed>, shares: seq<real>)
    requires |values| == |shares| && forall k | 0 <= k < |shares| :: values[k] == Some(shares[k])
    ensures Values(values) == shares
  {
    if values != [] {
      assert shares == [shares[0]] + shares[1..];
      ValuesAre(values[1..], shares[1..]);
    }
  }

  lemma {:induction false} PositiveValuesAre(values: seq<Parsed>)
    requires Positive(values)
    ensures |Values(values)| == |values| && forall k | 0 <= k < |values| :: values[k] == Some(Values(values)[k])
  {
    if values != [] {
      PositiveValuesAre(values[1..]);
      assert values[0] == Some(values[0].value);
    }
  }

  lemma AllocationIff(f: Fact, shares: seq<real>)
    requires Allocates(f) && shares != []
    ensures ValidAllocation(f.payload.values.value) && AllocationOf(f) == shares <==>
            GivesAllocations(f, shares) && (forall v | v in shares :: v > 0.0) && Total(shares) == 1.0
  {
    var values := f.payload.values.value;
    SumIsTotal(shares);
    if GivesAllocations(f, shares) {
      ValuesAre(values, shares);
      if forall v | v in shares :: v > 0.0 {
        assert forall k | 0 <= k < |shares| :: shares[k] in shares;
      }
    }
    if Positive(values) {
      PositiveValuesAre(values);
      ValuesOfPositive(values);
    }
  }

  lemma {:induction false} PositiveOnlyHas(offered: seq<Parsed>, v: real)
    ensures v in PositiveOnly(offered) <==> Some(v) in offered && v > 0.0
  {
    if offered != [] {
      PositiveOnlyHas(offered[1..], v);
      assert offered == [offered[0]] + offered[1..];
    }
  }

  lemma {:induction false} PositivePricesHas(selected: seq<Fact>, v: real)
    ensures v in PositivePrices(selected) <==> exists f :: f in selected && GivesPrice(f, v)
  {
    if selected != [] {
      var f := selected[0];
      PositivePricesHas(selected[1..], v);
      assert selected == [f] + selected[1..];
      if f.payload.SupplementalEntry? {
        PositiveOnlyHas(OfferedPrices(f.payload), v);
      }
      assert GivesPrice(f, v) <==> f.payload.SupplementalEntry? && v in PositiveOnly(OfferedPrices(f.payload));
      if v in PositivePrices(selected[1..]) {
        var g :| g in selected[1..] && GivesPrice(g, v);
        assert g in selected;
      }
      if GivesPrice(f, v) { assert f in selected; }
    }
  }

  lemma {:induction false} ListHoldsSet(values: seq<real>)
    ensures |set v | v in values| <= |values|
  {
    if values != [] {
      var init, last := values[..|values| - 1], values[|values| - 1];
      ListHoldsSet(init);
      assert values == init + [last];
      assert (set v | v in values) == (set v | v in init) + {last};
    }
  }

  lemma {:induction false} SubsetSize<T>(a: set<T>, b: set<T>)
    requires a <= b
    ensures |a| <= |b|
    decreases b
  {
    if b != {} {
      var v :| v in b;
      SubsetSize(a - {v}, b - {v});
      if v !in a { assert a - {v} == a; }
    }
  }

  lemma AgreeingIsConsistent(segment: seq<Fact>, s: Strategy, m: real, shares: seq<real>, prices: seq<real>)
    requires AgreeOn(segment, s, m, shares, prices)
    ensures Consistent(START, Selected(segment, s))
  {
    var selected := Selected(segment, s);
    forall f | f in selected
      ensures GoodMultiplier(f)
      ensures Allocates(f) ==> ValidAllocation(f.payload.values.value) && AllocationOf(f) == shares
    {
      SelectedIff(segment, s, f);
      if f.payload.RiskMultiplier? { assert GivesMultiplier(f, m); }
      if Allocates(f) { AllocationIff(f, shares); }
    }
  }

  lemma AgreeingMultipliers(segment: seq<Fact>, s: Strategy, m: real, shares: seq<real>, prices: seq<real>)
    requires AgreeOn(segment, s, m, shares, prices)
    ensures AllEqual(Multipliers(Selected(segment, s)))
  {
    var selected := Selected(segment, s);
    MultipliersAreOffered(selected);
    forall v | v in Multipliers(selected) ensures v == m {
      var f :| f in selected && f.payload.RiskMultiplier? && f.payload.value == Some(v);
      SelectedIff(segment, s, f);
      assert GivesMultiplier(f, m);
    }
    var given := Multipliers(selected);
    assert forall i | 0 <= i < |given| :: given[i] in given;
  }

  lemma AgreeingPrices(segment: seq<Fact>, s: Strategy, m: real, shares: seq<real>, prices: seq<real>)
    requires AgreeOn(segment, s, m, shares, prices)
    ensures |set v | v in PositivePrices(Selected(segment, s))| <= 3
  {
    var selected := Selected(segment, s);
    forall v | v in PositivePrices(selected) ensures v in prices {
      PositivePricesHas(selected, v);
      var f :| f in selected && GivesPrice(f, v);
      SelectedIff(segment, s, f);
    }
    ListHoldsSet(prices);
    SubsetSize(set v | v in PositivePrices(selected), set v | v in prices);
  }

  /** The prices a decision takes are the ones offered, and nothing else is taken where nothing is given. */
  ghost predicate TakesOnly(segment: seq<Fact>, s: Strategy, d: Decision) {
    && ((forall f | f in segment && Counts(f, s) :: !f.payload.RiskMultiplier?) ==> d.multiplier == 1.0)
    && (d.allocations != [] ==>
          exists f :: f in segment && Counts(f, s) && f.payload.LegAllocation? && f.payload.values.Some?)
    && (forall i, j | 0 <= i < j < |d.prices| :: d.prices[i] != d.prices[j])
    && (forall v | v in d.prices :: exists f :: f in segment && Counts(f, s) && GivesPrice(f, v))
  }

  lemma ReadyTakes(strategy: Strategy, facts: seq<Fact>, cutoff: SourceKey)
    requires SelectFragments(strategy, facts, cutoff).status == Ready
    ensures var d, segment := SelectFragments(strategy, facts, cutoff), BoundedSegment(strategy, facts, cutoff).0;
      AgreeOn(segment, strategy, d.multiplier, d.allocations, d.prices)
  {
    var d, segment := SelectFragments(strategy, facts, cutoff), BoundedSegment(strategy, facts, cutoff).0;
    var selected := Selected(segment, strategy);
    ReadyPromises(strategy, facts, cutoff);
    ReadyIff(strategy, facts, cutoff);
    SumIsTotal(d.allocations);
    forall f | f in segment && Counts(f, strategy)
      ensures f.payload.RiskMultiplier? ==> GivesMultiplier(f, d.multiplier)
      ensures f.payload.LegAllocation? && f.payload.values.Some? ==>
                d.allocations != [] && GivesAllocations(f, d.allocations)
      ensures forall v :: GivesPrice(f, v) ==> v in d.prices
    {
      SelectedIff(segment, strategy, f);
      if Allocates(f) { AllocationIff(f, d.allocations); }
      forall v | GivesPrice(f, v) ensures v in d.prices { PositivePricesHas(selected, v); }
    }
  }

  lemma ReadyTakesOnly(strategy: Strategy, facts: seq<Fact>, cutoff: SourceKey)
    requires SelectFragments(strategy, facts, cutoff).status == Ready
    ensures TakesOnly(BoundedSegment(strategy, facts, cutoff).0, strategy, SelectFragments(strategy, facts, cutoff))
  {
    var d, segment := SelectFragments(strategy, facts, cutoff), BoundedSegment(strategy, facts, cutoff).0;
    var selected := Selected(segment, strategy);
    ReadyPromises(strategy, facts, cutoff);
    forall f ensures f in selected <==> f in segment && Counts(f, strategy) { SelectedIff(segment, strategy, f); }
    if forall f | f in segment && Counts(f, strategy) :: !f.payload.RiskMultiplier? {
      NoMultipliers(strategy, segment, BoundedSegment(strategy, facts, cutoff).1);
    }
    if d.allocations != [] {
      var f :| f in selected && Allocates(f);
      assert f in segment;
    }
    forall v | v in d.prices ensures exists f :: f in segment && Counts(f, strategy) && GivesPrice(f, v) {
      PositivePricesHas(selected, v);
      var f :| f in selected && GivesPrice(f, v);
      assert f in segment;
    }
  }

  lemma NoMultipliers(strategy: Strategy, segment: seq<Fact>, evidence: seq<int>)
    requires forall f | f in Selected(segment, strategy) :: !f.payload.RiskMultiplier?
    requires Decide(strategy, segment, evidence).status == Ready
    ensures Decide(strategy, segment, evidence).multiplier == 1.0
  {
    var selected := Selected(segment, strategy);
    DecideReadyIff(strategy, segment, evidence);
    ScanCompletesIff(START, selected);
    NoneGiven(selected);
  }

  lemma {:induction false} NoneGiven(selected: seq<Fact>)
    requires forall f | f in selected :: !f.payload.RiskMultiplier?
    ensures Multipliers(selected) == []
  {
    if selected != [] {
      assert selected[0] in selected && forall f | f in selected[1..] :: f in selected;
      NoneGiven(selected[1..]);
    }
  }

  /** A decision is ready exactly when nothing in the segment is unresolved and its counting facts agree on
      one multiplier, one list of shares and at most three prices; it then takes exactly those, one where no
      multiplier is given, no share where no list is, and only prices that are offered. */
  lemma ReadyExactly(strategy: Strategy, facts: seq<Fact>, cutoff: SourceKey)
    ensures var d, segment := SelectFragments(strategy, facts, cutoff), BoundedSegment(strategy, facts, cutoff).0;
      && (d.status == Ready <==>
            && (forall f | f in segment :: f.kind != Unresolved)
            && exists m, shares, prices :: AgreeOn(segment, strategy, m, shares, prices))
      && (d.status == Ready ==>
            && AgreeOn(segment, strategy, d.multiplier, d.allocations, d.prices)
            && TakesOnly(segment, strategy, d))
  {
    var d, segment := SelectFragments(strategy, facts, cutoff), BoundedSegment(strategy, facts, cutoff).0;
    ReadyIff(strategy, facts, cutoff);
    if d.status == Ready {
      ReadyTakes(strategy, facts, cutoff);
      ReadyTakesOnly(strategy, facts, cutoff);
    }
    forall m, shares, prices | AgreeOn(segment, strategy, m, shares, prices)
      ensures (forall f | f in segment :: f.kind != Unresolved) ==> d.status == Ready
    {
      AgreeingIsConsistent(segment, strategy, m, shares, prices);
      AgreeingMultipliers(segment, strategy, m, shares, prices);
      AgreeingPrices(segment, strategy, m, shares, prices);
    }
  }

  // ---------------------------------------------------------------- ids and the order of prices

  /** The positive ids of the counting facts, in segment order. */
  ghost function FragmentIds(segment: seq<Fact>, s: Strategy): seq<int> {
    if segment == [] then []
    else
      (if Counts(segment[0], s) && segment[0].fragmentId.value > 0 then [segment[0].fragmentId.value] else [])
      + FragmentIds(segment[1..], s)
  }

  /** The negative ones, without their sign: ids of the older preamble table. */
  ghost function PreambleIds(segment: seq<Fact>, s: Strategy): seq<int> {
    if segment == [] then []
    else
      (if Counts(segment[0], s) && segment[0].fragmentId.value < 0 then [-segment[0].fragmentId.value] else [])
      + PreambleIds(segment[1..], s)
  }

  /** The positive prices the counting facts give, in segment order and with repetitions. */
  ghost function PricesGiven(segment: seq<Fact>, s: Strategy): seq<real> {
    if segment == [] then []
    else (if Counts(segment[0], s) then PricesOf(segment[0]) else []) + PricesGiven(segment[1..], s)
  }

  ghost function PricesOf(f: Fact): seq<real> {
    if !f.payload.SupplementalEntry? then []
    else
      match f.payload.entryPrice
      case Price(given) => PositiveOnly([given])
      case NoPrice => if f.payload.prices.Some? then PositiveOnly(f.payload.prices.value) else []
  }

  lemma SelectedCons(segment: seq<Fact>, s: Strategy)
    requires segment != []
    ensures Selected(segment, s) == (if Counts(segment[0], s) then [segment[0]] else []) + Selected(segment[1..], s)
  {
    CountsIff(segment[0], s);
  }

  lemma IdsCons(f: Fact, rest: seq<Fact>)
    requires f.fragmentId.Some?
    ensures Ids([f] + rest, false) == (if f.fragmentId.value > 0 then [f.fragmentId.value] else []) + Ids(rest, false)
    ensures Ids([f] + rest, true) == (if f.fragmentId.value < 0 then [-f.fragmentId.value] else []) + Ids(rest, true)
  {
    assert ([f] + rest)[1..] == rest;
  }

  lemma PricesCons(f: Fact, rest: seq<Fact>)
    ensures PositivePrices([f] + rest) == PricesOf(f) + PositivePrices(rest)
  {
    assert ([f] + rest)[1..] == rest;
  }

  lemma {:induction false} SelectedGives(segment: seq<Fact>, s: Strategy)
    ensures Ids(Selected(segment, s), false) == FragmentIds(segment, s)
    ensures Ids(Selected(segment, s), true) == PreambleIds(segment, s)
    ensures PositivePrices(Selected(segment, s)) == PricesGiven(segment, s)
  {
    if segment != [] {
      SelectedGives(segment[1..], s);
      SelectedCons(segment, s);
      if Counts(segment[0], s) {
        IdsCons(segment[0], Selected(segment[1..], s));
        PricesCons(segment[0], Selected(segment[1..], s));
      }
    }
  }

  /** Somewhere in the list one price stands, and the other has not come yet. */
  ghost predicate GivenFirst(given: seq<real>, v: real, later: real) {
    exists p :: 0 <= p < |given| && given[p] == v && later !in given[..p + 1]
  }

  /** The same prices, each once, in the order they are first given. */
  ghost predicate FirstsOf(prices: seq<real>, given: seq<real>) {
    && (forall v :: v in prices <==> v in given)
    && (forall x, y | 0 <= x < y < |prices| :: GivenFirst(given, prices[x], prices[y]))
  }

  lemma GivenStays(given: seq<real>, next: real, v: real, later: real)
    requires GivenFirst(given, v, later)
    ensures GivenFirst(given + [next], v, later)
  {
    var p :| 0 <= p < |given| && given[p] == v && later !in given[..p + 1];
    assert (given + [next])[p] == v && (given + [next])[..p + 1] == given[..p + 1];
  }

  lemma GivenNext(given: seq<real>, v: real, next: real)
    requires v in given && next !in given
    ensures GivenFirst(given + [next], v, next)
  {
    var p :| 0 <= p < |given| && given[p] == v;
    assert (given + [next])[p] == v && (given + [next])[..p + 1] == given[..p + 1];
  }

  lemma FirstsOneMore(prices: seq<real>, given: seq<real>, v: real)
    requires FirstsOf(prices, given)
    ensures FirstsOf(if v in prices then prices else prices + [v], given + [v])
  {
    var next := if v in prices then prices else prices + [v];
    forall x, y | 0 <= x < y < |next| ensures GivenFirst(given + [v], next[x], next[y]) {
      assert next[x] == prices[x] && prices[x] in prices;
      if y < |prices| {
        GivenStays(given, v, next[x], next[y]);
      } else {
        GivenNext(given, next[x], v);
      }
    }
  }

  lemma {:induction false} JoinedFirsts(prices: seq<real>, given: seq<real>, offered: seq<Parsed>)
    requires FirstsOf(prices, given)
    ensures FirstsOf(JoinPrices(prices, offered), given + PositiveOnly(offered))
    decreases |offered|
  {
    JoinStep(prices, given, offered);
    if offered != [] {
      var v, rest := offered[0], offered[1..];
      if v.Some? && v.value > 0.0 {
        FirstsOneMore(prices, given, v.value);
        JoinedFirsts(if v.value in prices then prices else prices + [v.value], given + [v.value], rest);
      } else {
        JoinedFirsts(prices, given, rest);
      }
    }
  }

  lemma JoinStep(prices: seq<real>, given: seq<real>, offered: seq<Parsed>)
    ensures offered == [] ==> JoinPrices(prices, offered) == prices && given + PositiveOnly(offered) == given
    ensures offered != [] && offered[0].Some? && offered[0].value > 0.0 ==>
              var v, rest := offered[0].value, offered[1..];
              && JoinPrices(prices, offered) == JoinPrices(if v in prices then prices else prices + [v], rest)
              && given + PositiveOnly(offered) == (given + [v]) + PositiveOnly(rest)
    ensures offered != [] && !(offered[0].Some? && offered[0].value > 0.0) ==>
              && JoinPrices(prices, offered) == JoinPrices(prices, offered[1..])
              && PositiveOnly(offered) == PositiveOnly(offered[1..])
  {
  }

  lemma {:induction false} ScannedFirsts(acc: Scan, given: seq<real>, selected: seq<Fact>)
    requires acc.Scanned? && FirstsOf(acc.prices, given) && ScanAll(acc, selected).Scanned?
    ensures FirstsOf(ScanAll(acc, selected).prices, given + PositivePrices(selected))
    decreases |selected|
  {
    if selected == [] {
      assert given + [] == given;
    } else {
      var f, rest := selected[0], selected[1..];
      var offered := if f.payload.SupplementalEntry? then OfferedPrices(f.payload) else [];
      ScanStep(acc, selected, offered);
      PricesStep(given, selected, offered);
      JoinedFirsts(acc.prices, given, offered);
      ScannedFirsts(ScanOne(acc, f.payload), given + PositiveOnly(offered), rest);
    }
  }

  lemma PricesStep(given: seq<real>, selected: seq<Fact>, offered: seq<Parsed>)
    requires selected != []
    requires offered == if selected[0].payload.SupplementalEntry? then OfferedPrices(selected[0].payload) else []
    ensures given + PositivePrices(selected) == (given + PositiveOnly(offered)) + PositivePrices(selected[1..])
  {
  }

  lemma ScanStep(acc: Scan, selected: seq<Fact>, offered: seq<Parsed>)
    requires acc.Scanned? && selected != [] && ScanAll(acc, selected).Scanned?
    requires offered == if selected[0].payload.SupplementalEntry? then OfferedPrices(selected[0].payload) else []
    ensures ScanOne(acc, selected[0].payload).Scanned?
    ensures ScanOne(acc, selected[0].payload).prices == JoinPrices(acc.prices, offered)
    ensures ScanAll(acc, selected) == ScanAll(ScanOne(acc, selected[0].payload), selected[1..])
  {
  }

  lemma ScannedPrices(segment: seq<Fact>, s: Strategy)
    requires ScanAll(START, Selected(segment, s)).Scanned?
    ensures FirstsOf(ScanAll(START, Selected(segment, s)).prices, PricesGiven(segment, s))
  {
    ScannedFirsts(START, [], Selected(segment, s));
    SelectedGives(segment, s);
    assert [] + PositivePrices(Selected(segment, s)) == PricesGiven(segment, s);
  }

  lemma ReadyConcludes(strategy: Strategy, segment: seq<Fact>, evidence: seq<int>)
    requires Decide(strategy, segment, evidence).status == Ready
    ensures var d, selected := Decide(strategy, segment, evidence), Selected(segment, strategy);
      && ScanAll(START, selected).Scanned? && d.prices == ScanAll(START, selected).prices
      && d.fragmentIds == Ids(selected, false) && d.legacyPreambleIds == Ids(selected, true)
  {
  }

  /** A ready decision names the counting facts by their ids, in segment order, the older ones apart, and
      its prices stand in the order in which they are first given. */
  lemma ReadyNames(strategy: Strategy, facts: seq<Fact>, cutoff: SourceKey)
    requires SelectFragments(strategy, facts, cutoff).status == Ready
    ensures var d, segment := SelectFragments(strategy, facts, cutoff), BoundedSegment(strategy, facts, cutoff).0;
      && d.fragmentIds == FragmentIds(segment, strategy)
      && d.legacyPreambleIds == PreambleIds(segment, strategy)
      && FirstsOf(d.prices, PricesGiven(segment, strategy))
  {
    var (segment, evidence) := BoundedSegment(strategy, facts, cutoff);
    ReadyConcludes(strategy, segment, evidence);
    SelectedGives(segment, strategy);
    ScannedPrices(segment, strategy);
  }

  // ---------------------------------------------------------------- fragments of other strategies

  lemma InsertedUnseen(facts: seq<Fact>, x: Fact, i: nat, cutoff: SourceKey, p: Fact -> bool)
    requires i <= |facts| && !p(x)
    ensures Filter(Sort(Filter(facts[..i] + [x] + facts[i..], UpTo(cutoff))), p) ==
            Filter(Sort(Filter(facts, UpTo(cutoff))), p)
  {
    var more := facts[..i] + [x] + facts[i..];
    var both := (f: Fact) => UpTo(cutoff)(f) && p(f);
    FilterSort(Filter(more, UpTo(cutoff)), p);
    FilterSort(Filter(facts, UpTo(cutoff)), p);
    FilterTwice(more, UpTo(cutoff), p, both);
    FilterTwice(facts, UpTo(cutoff), p, both);
    InsertFiltered(facts, x, i, both);
  }

  lemma SameEvidence(strategy: Strategy, facts: seq<Fact>, x: Fact, i: nat, cutoff: SourceKey)
    requires i <= |facts| && !HardBoundary(x.kind)
    ensures BoundedSegment(strategy, facts[..i] + [x] + facts[i..], cutoff).1 ==
            BoundedSegment(strategy, facts, cutoff).1
  {
    var here, more := StrategyKey(strategy), facts[..i] + [x] + facts[i..];
    var a, b := Sort(Filter(more, UpTo(cutoff))), Sort(Filter(facts, UpTo(cutoff)));
    var left := (f: Fact) => EarlierThan(here)(f) && IsHard()(f);
    var right := (f: Fact) => LaterThan(here)(f) && IsHard()(f);
    FilterTwice(a, EarlierThan(here), IsHard(), left);
    FilterTwice(b, EarlierThan(here), IsHard(), left);
    FilterTwice(a, LaterThan(here), IsHard(), right);
    FilterTwice(b, LaterThan(here), IsHard(), right);
    InsertedUnseen(facts, x, i, cutoff, left);
    InsertedUnseen(facts, x, i, cutoff, right);
  }

  lemma ShieldsNothing(strategy: Strategy, facts: seq<Fact>, x: Fact, i: nat, cutoff: SourceKey, key: SourceKey)
    requires i <= |facts| && !HardBoundary(x.kind)
    ensures Shielded(strategy, facts[..i] + [x] + facts[i..], cutoff, key) <==> Shielded(strategy, facts, cutoff, key)
  {
    var more, here := facts[..i] + [x] + facts[i..], StrategyKey(strategy);
    assert facts == facts[..i] + facts[i..];
    assert forall g :: g in more <==> g in facts || g == x;
  }

  lemma SameFiltered(strategy: Strategy, facts: seq<Fact>, x: Fact, i: nat, cutoff: SourceKey, p: Fact -> bool)
    requires i <= |facts| && !HardBoundary(x.kind) && !p(x)
    ensures Filter(BoundedSegment(strategy, facts[..i] + [x] + facts[i..], cutoff).0, p) ==
            Filter(BoundedSegment(strategy, facts, cutoff).0, p)
  {
    var more := facts[..i] + [x] + facts[i..];
    var inside, inside' := InSegmentOf(strategy, facts, cutoff), InSegmentOf(strategy, more, cutoff);
    var both := (f: Fact) => inside(f) && p(f);
    SegmentIsExactly(strategy, facts, cutoff);
    SegmentIsExactly(strategy, more, cutoff);
    forall f ensures inside'(f) == inside(f) { ShieldsNothing(strategy, facts, x, i, cutoff, KeyOf(f)); }
    FilterSort(Filter(facts, inside), p);
    FilterSort(Filter(more, inside'), p);
    FilterTwice(facts, inside, p, both);
    FilterTwice(more, inside', p, both);
    InsertFiltered(facts, x, i, both);
  }

  /** A fragment of another symbol or of the other side, or one without an id, changes nothing at all. */
  lemma OtherFragmentChangesNothing(strategy: Strategy, facts: seq<Fact>, x: Fact, i: nat, cutoff: SourceKey)
    requires i <= |facts| && x.kind == Fragment
    requires || !SameUpToCase(Strip(x.symbol), Strip(strategy.symbol))
             || !SameUpToCase(Strip(x.side), Strip(strategy.side))
             || x.fragmentId == None
    ensures SelectFragments(strategy, facts[..i] + [x] + facts[i..], cutoff) ==
            SelectFragments(strategy, facts, cutoff)
  {
    var matching, unresolved := (f: Fact) => Matching(f, strategy), (f: Fact) => f.kind == Unresolved;
    CountsIff(x, strategy);
    SameEvidence(strategy, facts, x, i, cutoff);
    SameFiltered(strategy, facts, x, i, cutoff, matching);
    SameFiltered(strategy, facts, x, i, cutoff, unresolved);
    var a := BoundedSegment(strategy, facts[..i] + [x] + facts[i..], cutoff).0;
    var b := BoundedSegment(strategy, facts, cutoff).0;
    SelectedByFilter(a, strategy, matching);
    SelectedByFilter(b, strategy, matching);
    PendingByFilter(a, unresolved);
    PendingByFilter(b, unresolved);
  }

  lemma SelectedByFilter(segment: seq<Fact>, s: Strategy, p: Fact -> bool)
    requires forall f :: p(f) == Matching(f, s)
    ensures Selected(segment, s) == Filter(segment, p)
  {
    FilterAgree(segment, (f: Fact) => Matching(f, s), p);
  }

  lemma PendingByFilter(segment: seq<Fact>, p: Fact -> bool)
    requires forall f :: p(f) == (f.kind == Unresolved)
    ensures PendingOf(segment) == Filter(segment, p)
  {
    FilterAgree(segment, (f: Fact) => f.kind == Unresolved, p);
  }
}
