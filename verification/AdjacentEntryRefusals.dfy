/** The decisions of an adjacent selection that are not ready: what keeps one pending, and which fact
    or which sum of facts blocks it. */
module AdjacentEntryRefusals {
  import opened AdjacentEntry
  import opened AdjacentEntryTheorems
  import opened AdjacentEntryReady
  import opened AdjacentEntryAnswers

  ghost predicate ValidShares(f: Fact) {
    exists shares :: GivesAllocations(f, shares) && shares != [] && (forall v | v in shares :: v > 0.0) &&
      Total(shares) == 1.0
  }

  ghost predicate ListsShares(f: Fact) { f.payload.LegAllocation? && f.payload.values.Some? }

  /** Nothing among the counting facts stops the scan. */
  ghost predicate NothingStops(segment: seq<Fact>, s: Strategy) {
    && (forall f | f in segment && Counts(f, s) && f.payload.RiskMultiplier? ::
          exists m :: GivesMultiplier(f, m) && 0.0 < m <= 1.0)
    && (forall f | f in segment && Counts(f, s) && ListsShares(f) :: ValidShares(f))
    && (forall f, g | f in segment && g in segment && Counts(f, s) && Counts(g, s) ::
          ListsShares(f) && ListsShares(g) ==> f.payload.values == g.payload.values)
  }

  /** The first fact that stops it, and why. */
  ghost predicate StopsAt(segment: seq<Fact>, s: Strategy, n: nat, reason: string)
    requires n < |segment|
  {
    var f := segment[n];
    && NothingStops(segment[..n], s) && Counts(f, s)
    && (|| (&& f.payload.RiskMultiplier? && !(exists m :: GivesMultiplier(f, m) && 0.0 < m <= 1.0)
            && reason == "entry_risk_multiplier_invalid")
        || (ListsShares(f) && !ValidShares(f) && reason == "entry_leg_allocation_invalid")
        || (&& ListsShares(f) && ValidShares(f) && reason == "entry_leg_allocation_conflict"
            && exists g :: g in segment[..n] && Counts(g, s) && ListsShares(g) && g.payload.values != f.payload.values))
  }

  lemma MultiplierIff(f: Fact)
    requires f.payload.RiskMultiplier?
    ensures GoodMultiplier(f) <==> exists m :: GivesMultiplier(f, m) && 0.0 < m <= 1.0
  {
    if GoodMultiplier(f) { assert GivesMultiplier(f, f.payload.value.value); }
  }

  lemma SharesIff(f: Fact)
    requires Allocates(f)
    ensures ValidAllocation(f.payload.values.value) <==> ValidShares(f)
    ensures ValidShares(f) ==> GivesAllocations(f, AllocationOf(f))
  {
    if ValidAllocation(f.payload.values.value) {
      ValidAllocationNotEmpty(f.payload.values.value);
      AllocationIff(f, AllocationOf(f));
    }
    if ValidShares(f) {
      var shares :| GivesAllocations(f, shares) && shares != [] && (forall v | v in shares :: v > 0.0) &&
        Total(shares) == 1.0;
      AllocationIff(f, shares);
    }
  }

  lemma SameShares(f: Fact, g: Fact)
    requires Allocates(f) && Allocates(g) && ValidShares(f) && ValidShares(g)
    ensures AllocationOf(f) == AllocationOf(g) <==> f.payload.values == g.payload.values
  {
    SharesIff(f);
    SharesIff(g);
    if AllocationOf(f) == AllocationOf(g) {
      assert f.payload.values.value == g.payload.values.value;
    }
  }

  lemma NothingStopsIff(segment: seq<Fact>, s: Strategy)
    ensures NothingStops(segment, s) <==> Consistent(START, Selected(segment, s))
  {
    var selected := Selected(segment, s);
    forall f ensures f in selected <==> f in segment && Counts(f, s) { SelectedIff(segment, s, f); }
    forall f | f in selected && f.payload.RiskMultiplier?
      ensures GoodMultiplier(f) <==> exists m :: GivesMultiplier(f, m) && 0.0 < m <= 1.0
    {
      MultiplierIff(f);
    }
    forall f | f in selected && Allocates(f) ensures ValidAllocation(f.payload.values.value) <==> ValidShares(f) {
      SharesIff(f);
    }
    forall f, g | f in selected && g in selected && Allocates(f) && Allocates(g) && ValidShares(f) && ValidShares(g)
      ensures AllocationOf(f) == AllocationOf(g) <==> f.payload.values == g.payload.values
    {
      SameShares(f, g);
    }
  }

  lemma {:induction false} ScanSnoc(acc: Scan, selected: seq<Fact>, f: Fact)
    requires acc.Scanned?
    ensures ScanAll(acc, selected + [f]) ==
            if ScanAll(acc, selected).Stopped? then ScanAll(acc, selected)
            else ScanOne(ScanAll(acc, selected), f.payload)
    decreases |selected|
  {
    if selected == [] {
      assert selected + [f] == [f] && [f][1..] == [];
    } else {
      assert (selected + [f])[1..] == selected[1..] + [f];
      var next := ScanOne(acc, selected[0].payload);
      if next.Scanned? { ScanSnoc(next, selected[1..], f); }
    }
  }

  lemma SelectedSnoc(segment: seq<Fact>, f: Fact, s: Strategy)
    ensures Selected(segment + [f], s) == Selected(segment, s) + if Counts(f, s) then [f] else []
  {
    FilterConcat(segment, [f], (g: Fact) => Matching(g, s));
    CountsIff(f, s);
    assert [f][1..] == [];
  }

  lemma StopsHere(segment: seq<Fact>, f: Fact, s: Strategy, reason: string)
    requires Counts(f, s) && NothingStops(segment, s)
    requires ScanAll(START, Selected(segment, s)).Scanned?
    requires ScanOne(ScanAll(START, Selected(segment, s)), f.payload) == Stopped(reason)
    ensures StopsAt(segment + [f], s, |segment|, reason)
  {
    var selected, all := Selected(segment, s), segment + [f];
    var scan := ScanAll(START, selected);
    assert all[|segment|] == f && all[..|segment|] == segment;
    NothingStopsIff(segment, s);
    ScanCompletesIff(START, selected);
    if f.payload.RiskMultiplier? {
      MultiplierIff(f);
    } else {
      SharesIff(f);
      if ValidShares(f) {
        var g :| g in selected && Allocates(g);
        SelectedIff(segment, s, g);
        SameShares(f, g);
      }
    }
  }

  ghost predicate Stops(segment: seq<Fact>, s: Strategy, reason: string) {
    exists n: nat :: n < |segment| && StopsAt(segment, s, n, reason)
  }

  lemma StopStays(segment: seq<Fact>, f: Fact, s: Strategy, reason: string)
    requires Stops(segment, s, reason)
    ensures Stops(segment + [f], s, reason)
  {
    var n: nat :| n < |segment| && StopsAt(segment, s, n, reason);
    assert (segment + [f])[n] == segment[n] && (segment + [f])[..n] == segment[..n];
    assert StopsAt(segment + [f], s, n, reason);
  }

  lemma ScanOneFurther(segment: seq<Fact>, f: Fact, s: Strategy)
    ensures var (before, after) := (ScanAll(START, Selected(segment, s)), ScanAll(START, Selected(segment + [f], s)));
      after == if before.Scanned? && Counts(f, s) then ScanOne(before, f.payload) else before
  {
    SelectedSnoc(segment, f, s);
    if Counts(f, s) {
      ScanSnoc(START, Selected(segment, s), f);
    } else {
      assert Selected(segment, s) + [] == Selected(segment, s);
    }
  }

  lemma {:induction false} ScanStops(segment: seq<Fact>, s: Strategy, reason: string)
    requires ScanAll(START, Selected(segment, s)) == Stopped(reason)
    ensures Stops(segment, s, reason)
  {
    if segment != [] {
      var init, f := segment[..|segment| - 1], segment[|segment| - 1];
      assert segment == init + [f];
      ScanOneFurther(init, f, s);
      if ScanAll(START, Selected(init, s)).Stopped? {
        ScanStops(init, s, reason);
        StopStays(init, f, s, reason);
      } else {
        NothingStopsIff(init, s);
        ScanCompletesIff(START, Selected(init, s));
        StopsHere(init, f, s, reason);
      }
    }
  }

  /** The raw rows of the unresolved facts, in segment order. */
  ghost function UnresolvedRaws(segment: seq<Fact>): seq<int> {
    if segment == [] then []
    else (if segment[0].kind == Unresolved then [segment[0].raw] else []) + UnresolvedRaws(segment[1..])
  }

  lemma {:induction false} PendingIs(segment: seq<Fact>)
    ensures Raws(PendingOf(segment)) == UnresolvedRaws(segment)
    ensures PendingOf(segment) == [] <==> forall f | f in segment :: f.kind != Unresolved
  {
    if segment != [] {
      PendingIs(segment[1..]);
      var f := segment[0];
      assert segment == [f] + segment[1..];
      assert PendingOf(segment) == (if f.kind == Unresolved then [f] else []) + PendingOf(segment[1..]);
      if f.kind == Unresolved { assert PendingOf(segment)[1..] == PendingOf(segment[1..]); }
    }
  }

  /** Blocked with the whole scan done: the answer still names the facts, and says what was too much. */
  ghost predicate TakenThough(strategy: Strategy, segment: seq<Fact>, evidence: seq<int>, d: Decision) {
    && d.status == Blocked && d.multiplier == 1.0 && d.boundaryEvidence == evidence && d.pendingRaws == []
    && d.fragmentIds == FragmentIds(segment, strategy) && d.legacyPreambleIds == PreambleIds(segment, strategy)
    && (forall f | f in segment && Counts(f, strategy) && ListsShares(f) :: GivesAllocations(f, d.allocations))
    && (if |set v | v in PricesGiven(segment, strategy)| > 3
        then d.reason == "entry_leg_count_exceeded" && d.prices == []
        else d.reason == "entry_risk_multiplier_conflict" && FirstsOf(d.prices, PricesGiven(segment, strategy)))
  }

  /** Every answer that is not ready.  Something unresolved keeps it pending; a fact that stops the scan, the
      first one, blocks it with nothing taken; else too many prices, and else two multipliers, block it. */
  lemma NotReadyExactly(strategy: Strategy, facts: seq<Fact>, cutoff: SourceKey)
    requires SelectFragments(strategy, facts, cutoff).status != Ready
    ensures var d := SelectFragments(strategy, facts, cutoff);
      var (segment, evidence) := BoundedSegment(strategy, facts, cutoff);
      if exists f :: f in segment && f.kind == Unresolved then
        d == Decision(Pending, "adjacent_entry_context_pending", [], 1.0, [], [], evidence, UnresolvedRaws(segment), [])
      else if !NothingStops(segment, strategy) then
        && d == Decision(Blocked, d.reason, [], 1.0, [], [], evidence, [], [])
        && Stops(segment, strategy, d.reason)
      else
        TakenThough(strategy, segment, evidence, d)
  {
    var (segment, evidence) := BoundedSegment(strategy, facts, cutoff);
    var selected := Selected(segment, strategy);
    PendingIs(segment);
    NothingStopsIff(segment, strategy);
    ScanCompletesIff(START, selected);
    if forall f | f in segment :: f.kind != Unresolved {
      if NothingStops(segment, strategy) {
        CompletedButBlocked(strategy, segment, evidence);
      } else {
        ScanStops(segment, strategy, ScanAll(START, selected).reason);
      }
    }
  }

  lemma ScannedShares(segment: seq<Fact>, s: Strategy, f: Fact)
    requires NothingStops(segment, s) && f in segment && Counts(f, s) && ListsShares(f)
    ensures ScanAll(START, Selected(segment, s)).Scanned?
    ensures GivesAllocations(f, ScanAll(START, Selected(segment, s)).allocations)
  {
    NothingStopsIff(segment, s);
    ScanCompletesIff(START, Selected(segment, s));
    SelectedIff(segment, s, f);
    SharesIff(f);
  }

  lemma ScannedCount(segment: seq<Fact>, s: Strategy)
    requires ScanAll(START, Selected(segment, s)).Scanned?
    ensures |ScanAll(START, Selected(segment, s)).prices| == |set v | v in PricesGiven(segment, s)|
  {
    ScanCompletesIff(START, Selected(segment, s));
    ScannedPrices(segment, s);
    FirstsCount(ScanAll(START, Selected(segment, s)).prices, PricesGiven(segment, s));
  }

  lemma FirstsCount(prices: seq<real>, given: seq<real>)
    requires FirstsOf(prices, given) && Distinct(prices)
    ensures |prices| == |set v | v in given|
  {
    DistinctSize(prices);
    SameSet(prices, given);
  }

  lemma SameSet<T>(a: seq<T>, b: seq<T>)
    requires forall v :: v in a <==> v in b
    ensures (set v | v in a) == (set v | v in b)
  {
  }

  lemma BlockedConcludes(strategy: Strategy, segment: seq<Fact>, evidence: seq<int>)
    requires PendingOf(segment) == [] && ScanAll(START, Selected(segment, strategy)).Scanned?
    requires Decide(strategy, segment, evidence).status != Ready
    ensures var d, selected := Decide(strategy, segment, evidence), Selected(segment, strategy);
      var scan := ScanAll(START, selected);
      && d.status == Blocked && d.multiplier == 1.0 && d.boundaryEvidence == evidence && d.pendingRaws == []
      && d.fragmentIds == Ids(selected, false) && d.legacyPreambleIds == Ids(selected, true)
      && d.allocations == scan.allocations
      && (if |scan.prices| > 3 then d.reason == "entry_leg_count_exceeded" && d.prices == []
          else d.reason == "entry_risk_multiplier_conflict" && d.prices == scan.prices)
  {
  }

  lemma CompletedButBlocked(strategy: Strategy, segment: seq<Fact>, evidence: seq<int>)
    requires PendingOf(segment) == [] && NothingStops(segment, strategy)
    requires Decide(strategy, segment, evidence).status != Ready
    ensures TakenThough(strategy, segment, evidence, Decide(strategy, segment, evidence))
  {
    NothingStopsIff(segment, strategy);
    ScanCompletesIff(START, Selected(segment, strategy));
    BlockedConcludes(strategy, segment, evidence);
    SelectedGives(segment, strategy);
    ScannedCount(segment, strategy);
    ScannedPrices(segment, strategy);
    var scan := ScanAll(START, Selected(segment, strategy));
    forall f | f in segment && Counts(f, strategy) && ListsShares(f) ensures GivesAllocations(f, scan.allocations) {
      ScannedShares(segment, strategy, f);
    }
  }
}
