/** When a selection is ready, and what a ready decision promises. */
module AdjacentEntryReady {
  import opened Options
  import opened AdjacentEntry

  predicate GoodMultiplier(f: Fact) {
    f.payload.RiskMultiplier? ==> f.payload.value.Some? && 0.0 < f.payload.value.value <= 1.0
  }

  predicate Allocates(f: Fact) { f.payload.LegAllocation? && f.payload.values.Some? }

  function AllocationOf(f: Fact): seq<real>
    requires Allocates(f)
  {
    Values(f.payload.values.value)
  }

  /** Every positive price the fragments offer, in order and with repetitions. */
  function PositivePrices(selected: seq<Fact>): seq<real> {
    if selected == [] then []
    else (if selected[0].payload.SupplementalEntry? then PositiveOnly(OfferedPrices(selected[0].payload)) else [])
         + PositivePrices(selected[1..])
  }

  function PositiveOnly(offered: seq<Parsed>): seq<real> {
    if offered == [] then []
    else if offered[0].Some? && offered[0].value > 0.0 then [offered[0].value] + PositiveOnly(offered[1..])
    else PositiveOnly(offered[1..])
  }

  function Multipliers(selected: seq<Fact>): seq<real> {
    if selected == [] then []
    else if selected[0].payload.RiskMultiplier? && selected[0].payload.value.Some?
    then [selected[0].payload.value.value] + Multipliers(selected[1..])
    else Multipliers(selected[1..])
  }

  // ---------------------------------------------------------------- prices

  predicate Distinct(values: seq<real>) {
    forall i, j | 0 <= i < j < |values| :: values[i] != values[j]
  }

  predicate AllPositive(values: seq<real>) { forall v | v in values :: v > 0.0 }

  lemma {:induction false} JoinedPrices(prices: seq<real>, offered: seq<Parsed>)
    requires Distinct(prices) && AllPositive(prices)
    ensures var joined := JoinPrices(prices, offered);
      Distinct(joined) && AllPositive(joined) &&
        (forall v :: v in joined <==> v in prices || v in PositiveOnly(offered))
    decreases |offered|
  {
    if offered != [] {
      var v := offered[0];
      var next := if v.Some? && v.value > 0.0 && v.value !in prices then prices + [v.value] else prices;
      JoinedPrices(next, offered[1..]);
    }
  }

  lemma {:induction false} DistinctSize(values: seq<real>)
    requires Distinct(values)
    ensures |set v | v in values| == |values|
  {
    if values != [] {
      var init := values[..|values| - 1];
      var last := values[|values| - 1];
      DistinctSize(init);
      assert values == init + [last];
      assert (set v | v in values) == (set v | v in init) + {last};
    }
  }

  // ---------------------------------------------------------------- the scan

  /** What the fragments must satisfy for the scan to run through. */
  ghost predicate Consistent(acc: Scan, selected: seq<Fact>)
    requires acc.Scanned?
  {
    && (forall f | f in selected :: GoodMultiplier(f))
    && (forall f | f in selected && Allocates(f) ::
          ValidAllocation(f.payload.values.value) && (acc.allocations != [] ==> AllocationOf(f) == acc.allocations))
    && (forall f, g | f in selected && g in selected && Allocates(f) && Allocates(g) ::
       AllocationOf(f) == AllocationOf(g))
  }

  ghost predicate ScanMeans(acc: Scan, selected: seq<Fact>, scan: Scan)
    requires acc.Scanned?
  {
    && scan.Scanned?
    && scan.multipliers == acc.multipliers + Multipliers(selected)
    && (forall f | f in selected && Allocates(f) :: scan.allocations == AllocationOf(f))
    && ((forall f | f in selected :: !Allocates(f)) ==> scan.allocations == acc.allocations)
    && Distinct(scan.prices) && AllPositive(scan.prices)
    && (forall v :: v in scan.prices <==> v in acc.prices || v in PositivePrices(selected))
  }

  lemma ValidAllocationNotEmpty(values: seq<Parsed>)
    requires ValidAllocation(values)
    ensures Values(values) != []
  {
  }

  /** The scan runs through exactly when multipliers are in range and all allocation lists agree. */
  lemma {:induction false} ScanCompletesIff(acc: Scan, selected: seq<Fact>)
    requires acc.Scanned? && Distinct(acc.prices) && AllPositive(acc.prices)
    ensures ScanAll(acc, selected).Scanned? <==> Consistent(acc, selected)
    ensures Consistent(acc, selected) ==> ScanMeans(acc, selected, ScanAll(acc, selected))
    decreases |selected|
  {
    if selected != [] {
      var f, rest := selected[0], selected[1..];
      assert selected == [f] + rest && f in selected;
      var next := ScanOne(acc, f.payload);
      if f.payload.SupplementalEntry? { JoinedPrices(acc.prices, OfferedPrices(f.payload)); }
      if next.Scanned? {
        ScanCompletesIff(next, rest);
        if Allocates(f) { ValidAllocationNotEmpty(f.payload.values.value); }
        ConsistentStep(acc, f, rest);
        if Consistent(acc, selected) { MeansStep(acc, f, rest, ScanAll(next, rest)); }
      }
    }
  }

  lemma ConsistentStep(acc: Scan, f: Fact, rest: seq<Fact>)
    requires acc.Scanned? && ScanOne(acc, f.payload).Scanned?
    requires Allocates(f) ==> AllocationOf(f) != []
    ensures Consistent(acc, [f] + rest) <==> Consistent(ScanOne(acc, f.payload), rest)
  {
    var selected, next := [f] + rest, ScanOne(acc, f.payload);
    assert forall g :: g in selected <==> g == f || g in rest;
    if Consistent(next, rest) {
      assert GoodMultiplier(f);
    }
    if Consistent(acc, selected) {
      assert f in selected && forall g | g in rest :: g in selected;
    }
  }

  lemma MeansStep(acc: Scan, f: Fact, rest: seq<Fact>, scan: Scan)
    requires acc.Scanned? && Distinct(acc.prices) && AllPositive(acc.prices)
    requires ScanOne(acc, f.payload).Scanned? && Consistent(acc, [f] + rest)
    requires ScanMeans(ScanOne(acc, f.payload), rest, scan)
    ensures ScanMeans(acc, [f] + rest, scan)
  {
    var selected, next := [f] + rest, ScanOne(acc, f.payload);
    assert selected[1..] == rest && f in selected;
    assert forall g :: g in selected <==> g == f || g in rest;
    if f.payload.SupplementalEntry? {
      JoinedPrices(acc.prices, OfferedPrices(f.payload));
    }
    if Allocates(f) {
      assert next.allocations == AllocationOf(f);
      if g :| g in rest && Allocates(g) {
        assert scan.allocations == AllocationOf(g);
        assert AllocationOf(g) == AllocationOf(f);
      }
    }
    assert next.multipliers + Multipliers(rest) == acc.multipliers + Multipliers(selected);
  }

  // ---------------------------------------------------------------- the theorem

  ghost predicate SegmentAgrees(strategy: Strategy, segment: seq<Fact>) {
    var selected := Selected(segment, strategy);
    && (forall f | f in segment :: f.kind != Unresolved)
    && Consistent(START, selected)
    && AllEqual(Multipliers(selected))
    && |set v | v in PositivePrices(selected)| <= MAX_SUPPLEMENTAL_ENTRY_PRICES
  }

  lemma ConcludeReadyIff(selected: seq<Fact>, evidence: seq<int>)
    ensures Conclude(ScanAll(START, selected), selected, evidence).status == Ready <==>
            && Consistent(START, selected) && AllEqual(Multipliers(selected))
            && |set v | v in PositivePrices(selected)| <= MAX_SUPPLEMENTAL_ENTRY_PRICES
  {
    ScanCompletesIff(START, selected);
    if Consistent(START, selected) {
      var scan := ScanAll(START, selected);
      assert scan.multipliers == Multipliers(selected);
      DistinctSize(scan.prices);
      var prices := PositivePrices(selected);
      assert forall v :: v in scan.prices <==> v in prices;
      assert (set v | v in scan.prices) == (set v | v in prices);
    }
  }

  /** A decision is ready exactly when the segment holds nothing unresolved, its multipliers are in (0, 1]
      and agree, its allocation lists are positive, sum to one and agree, and it offers at most three
      distinct positive prices. */
  lemma ReadyIff(strategy: Strategy, facts: seq<Fact>, cutoff: SourceKey)
    ensures SelectFragments(strategy, facts, cutoff).status == Ready <==>
            SegmentAgrees(strategy, BoundedSegment(strategy, facts, cutoff).0)
  {
    var (segment, evidence) := BoundedSegment(strategy, facts, cutoff);
    DecideReadyIff(strategy, segment, evidence);
  }

  lemma DecideReadyIff(strategy: Strategy, segment: seq<Fact>, evidence: seq<int>)
    ensures Decide(strategy, segment, evidence).status == Ready <==> SegmentAgrees(strategy, segment)
  {
    var pending := PendingOf(segment);
    if pending != [] {
      assert pending[0] in pending;
    } else {
      assert forall f | f in segment :: f.kind != Unresolved by {
        forall f | f in segment ensures f.kind != Unresolved { assert f !in pending; }
      }
      ConcludeReadyIff(Selected(segment, strategy), evidence);
    }
  }

  lemma {:induction false} MultipliersAreOffered(selected: seq<Fact>)
    ensures forall m | m in Multipliers(selected) ::
              exists f :: f in selected && f.payload.RiskMultiplier? && f.payload.value == Some(m)
    ensures forall f | f in selected && f.payload.RiskMultiplier? && f.payload.value.Some? ::
              f.payload.value.value in Multipliers(selected)
  {
    if selected != [] {
      MultipliersAreOffered(selected[1..]);
      assert selected == [selected[0]] + selected[1..];
      forall m | m in Multipliers(selected)
        ensures exists f :: f in selected && f.payload.RiskMultiplier? && f.payload.value == Some(m)
      {
        if m in Multipliers(selected[1..]) {
          var f :| f in selected[1..] && f.payload.RiskMultiplier? && f.payload.value == Some(m);
          assert f in selected;
        } else {
          assert selected[0] in selected;
        }
      }
    }
  }

  lemma {:induction false} ValuesOfPositive(values: seq<Parsed>)
    requires Positive(values)
    ensures |Values(values)| == |values| && AllPositive(Values(values))
  {
    if values != [] {
      assert values[0].Some? && values[0].value > 0.0;
      ValuesOfPositive(values[1..]);
    }
  }

  lemma AgreedMultiplier(selected: seq<Fact>, m: real)
    requires Consistent(START, selected) && AllEqual(Multipliers(selected))
    requires m == if Multipliers(selected) == [] then 1.0 else Multipliers(selected)[0]
    ensures 0.0 < m <= 1.0
    ensures forall f | f in selected && f.payload.RiskMultiplier? :: f.payload.value == Some(m)
  {
    MultipliersAreOffered(selected);
    var multipliers := Multipliers(selected);
    if multipliers != [] {
      assert multipliers[0] in multipliers;
      var f :| f in selected && f.payload.RiskMultiplier? && f.payload.value == Some(multipliers[0]);
      assert GoodMultiplier(f);
    }
    forall f | f in selected && f.payload.RiskMultiplier? ensures f.payload.value == Some(m) {
      assert GoodMultiplier(f);
      var i :| 0 <= i < |multipliers| && multipliers[i] == f.payload.value.value;
    }
  }

  lemma AgreedAllocation(selected: seq<Fact>, scan: Scan)
    requires Consistent(START, selected) && ScanMeans(START, selected, scan)
    ensures scan.allocations == [] || (AllPositive(scan.allocations) && Sum(scan.allocations) == 1.0)
    ensures scan.allocations == [] <==> forall f | f in selected :: !Allocates(f)
  {
    if f :| f in selected && Allocates(f) {
      assert ValidAllocation(f.payload.values.value);
      ValuesOfPositive(f.payload.values.value);
      ValidAllocationNotEmpty(f.payload.values.value);
    }
  }

  /** What a ready decision promises its caller. */
  lemma ReadyPromises(strategy: Strategy, facts: seq<Fact>, cutoff: SourceKey)
    requires SelectFragments(strategy, facts, cutoff).status == Ready
    ensures var d := SelectFragments(strategy, facts, cutoff);
      var selected := Selected(BoundedSegment(strategy, facts, cutoff).0, strategy);
      && 0.0 < d.multiplier <= 1.0
      && (forall f | f in selected && f.payload.RiskMultiplier? :: f.payload.value == Some(d.multiplier))
      && (d.allocations == [] || (AllPositive(d.allocations) && Sum(d.allocations) == 1.0))
      && (forall f | f in selected && Allocates(f) :: d.allocations == AllocationOf(f))
      && (d.allocations == [] <==> forall f | f in selected :: !Allocates(f))
      && |d.prices| <= 3 && Distinct(d.prices) && AllPositive(d.prices)
      && (forall v :: v in d.prices <==> v in PositivePrices(selected))
      && d.pendingRaws == []
  {
    var (segment, evidence) := BoundedSegment(strategy, facts, cutoff);
    DecidePromises(strategy, segment, evidence);
  }

  lemma DecidePromises(strategy: Strategy, segment: seq<Fact>, evidence: seq<int>)
    requires Decide(strategy, segment, evidence).status == Ready
    ensures var d, selected := Decide(strategy, segment, evidence), Selected(segment, strategy);
      && 0.0 < d.multiplier <= 1.0
      && (forall f | f in selected && f.payload.RiskMultiplier? :: f.payload.value == Some(d.multiplier))
      && (d.allocations == [] || (AllPositive(d.allocations) && Sum(d.allocations) == 1.0))
      && (forall f | f in selected && Allocates(f) :: d.allocations == AllocationOf(f))
      && (d.allocations == [] <==> forall f | f in selected :: !Allocates(f))
      && |d.prices| <= 3 && Distinct(d.prices) && AllPositive(d.prices)
      && (forall v :: v in d.prices <==> v in PositivePrices(selected))
      && d.pendingRaws == []
  {
    var selected := Selected(segment, strategy);
    DecideReadyIff(strategy, segment, evidence);
    ScanCompletesIff(START, selected);
    var scan := ScanAll(START, selected);
    assert scan.multipliers == Multipliers(selected);
    var d := Decide(strategy, segment, evidence);
    assert d.allocations == scan.allocations && d.prices == scan.prices;
    AgreedMultiplier(selected, d.multiplier);
    AgreedAllocation(selected, scan);
  }
}
