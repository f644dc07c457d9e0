/** What the adjacent selection means: which facts the segment holds, what cannot
    influence the decision, and when it is ready. */
module AdjacentEntryTheorems {
  import opened AdjacentEntry

  // ---------------------------------------------------------------- filters and sorts

  lemma {:induction false} FilterAgree(facts: seq<Fact>, p: Fact -> bool, q: Fact -> bool)
    requires forall f | f in facts :: p(f) == q(f)
    ensures Filter(facts, p) == Filter(facts, q)
  {
    if facts != [] {
      assert facts[0] in facts && forall f | f in facts[1..] :: f in facts;
      FilterAgree(facts[1..], p, q);
    }
  }

  lemma {:induction false} FilterConcat(a: seq<Fact>, b: seq<Fact>, p: Fact -> bool)
    ensures Filter(a + b, p) == Filter(a, p) + Filter(b, p)
  {
    if a == [] {
      assert a + b == b;
    } else {
      assert (a + b)[0] == a[0] && (a + b)[1..] == a[1..] + b;
      FilterConcat(a[1..], b, p);
    }
  }

  lemma {:induction false} FilterTwice(facts: seq<Fact>, p: Fact -> bool, q: Fact -> bool, both: Fact -> bool)
    requires forall f | f in facts :: both(f) == (p(f) && q(f))
    ensures Filter(Filter(facts, p), q) == Filter(facts, both)
  {
    if facts != [] {
      assert facts[0] in facts && forall f | f in facts[1..] :: f in facts;
      FilterTwice(facts[1..], p, q, both);
      var head := if p(facts[0]) then [facts[0]] else [];
      FilterConcat(head, Filter(facts[1..], p), q);
    }
  }

  lemma {:induction false} InsertHas(f: Fact, sorted: seq<Fact>, x: Fact)
    ensures x in Insert(f, sorted) <==> x == f || x in sorted
  {
    if sorted != [] && !AtMost(KeyOf(f), KeyOf(sorted[0])) {
      InsertHas(f, sorted[1..], x);
      assert sorted == [sorted[0]] + sorted[1..];
    }
  }

  lemma {:induction false} InsertPermutes(f: Fact, sorted: seq<Fact>)
    ensures multiset(Insert(f, sorted)) == multiset(sorted) + multiset{f}
  {
    if sorted != [] && !AtMost(KeyOf(f), KeyOf(sorted[0])) {
      InsertPermutes(f, sorted[1..]);
      assert sorted == [sorted[0]] + sorted[1..];
    }
  }

  lemma {:induction false} InsertIsSorted(f: Fact, sorted: seq<Fact>)
    requires Sorted(sorted)
    ensures Sorted(Insert(f, sorted))
  {
    if sorted != [] && !AtMost(KeyOf(f), KeyOf(sorted[0])) {
      var tail := Insert(f, sorted[1..]);
      InsertIsSorted(f, sorted[1..]);
      forall i | 0 <= i < |tail| ensures AtMost(KeyOf(sorted[0]), KeyOf(tail[i])) {
        InsertHas(f, sorted[1..], tail[i]);
      }
    }
  }

  lemma {:induction false} SortPermutes(facts: seq<Fact>)
    ensures Sorted(Sort(facts)) && multiset(Sort(facts)) == multiset(facts)
  {
    if facts != [] {
      SortPermutes(facts[1..]);
      InsertIsSorted(facts[0], Sort(facts[1..]));
      InsertPermutes(facts[0], Sort(facts[1..]));
      assert facts == [facts[0]] + facts[1..];
    }
  }

  lemma SortIsSorted(facts: seq<Fact>)
    ensures Sorted(Sort(facts)) && multiset(Sort(facts)) == multiset(facts)
    ensures forall f :: f in Sort(facts) <==> f in facts
  {
    SortPermutes(facts);
    forall f ensures f in Sort(facts) <==> f in facts {
      assert f in Sort(facts) <==> f in multiset(Sort(facts));
    }
  }

  lemma {:induction false} FilterInsert(f: Fact, sorted: seq<Fact>, p: Fact -> bool)
    requires Sorted(sorted)
    ensures Filter(Insert(f, sorted), p) == if p(f) then Insert(f, Filter(sorted, p)) else Filter(sorted, p)
  {
    if sorted == [] || AtMost(KeyOf(f), KeyOf(sorted[0])) {
      assert ([f] + sorted)[1..] == sorted;
      var kept := Filter(sorted, p);
      if kept != [] {
        assert kept[0] in kept;
        assert kept[0] in sorted;
      }
    } else {
      FilterInsert(f, sorted[1..], p);
      assert ([sorted[0]] + Insert(f, sorted[1..]))[1..] == Insert(f, sorted[1..]);
      if p(f) && p(sorted[0]) {
        var kept := Filter(sorted[1..], p);
        assert ([sorted[0]] + kept)[1..] == kept;
      }
    }
  }

  /** A stable sort and a filter commute. */
  lemma {:induction false} FilterSort(facts: seq<Fact>, p: Fact -> bool)
    ensures Filter(Sort(facts), p) == Sort(Filter(facts, p))
  {
    if facts != [] {
      FilterSort(facts[1..], p);
      SortIsSorted(facts[1..]);
      FilterInsert(facts[0], Sort(facts[1..]), p);
      if p(facts[0]) {
        var kept := [facts[0]] + Filter(facts[1..], p);
        assert kept[1..] == Filter(facts[1..], p);
      }
    }
  }

  /** In a sorted list the facts before a key come first, those after it last. */
  lemma {:induction false} SplitAround(sorted: seq<Fact>, here: SourceKey, p: Fact -> bool, q: Fact -> bool,
      either: Fact -> bool)
    requires Sorted(sorted)
    requires forall f | f in sorted :: either(f) == (p(f) || q(f))
    requires forall f | f in sorted :: (p(f) ==> Before(KeyOf(f), here)) && (q(f) ==> Before(here, KeyOf(f)))
    ensures Filter(sorted, p) + Filter(sorted, q) == Filter(sorted, either)
  {
    if sorted != [] {
      var f, rest := sorted[0], sorted[1..];
      assert f in sorted && forall g | g in rest :: g in sorted;
      SplitAround(rest, here, p, q, either);
      if p(f) {
        assert [f] + (Filter(rest, p) + Filter(rest, q)) == ([f] + Filter(rest, p)) + Filter(rest, q);
      } else if q(f) {
        HeadIsEarliest(sorted);
        FilterNone(rest, p);
        assert Filter(rest, either) == Filter(rest, q);
        assert Filter(sorted, p) + Filter(sorted, q) == Filter(sorted, q);
      }
    }
  }

  lemma HeadIsEarliest(sorted: seq<Fact>)
    requires Sorted(sorted) && sorted != []
    ensures forall g | g in sorted :: AtMost(KeyOf(sorted[0]), KeyOf(g))
  {
    forall g | g in sorted ensures AtMost(KeyOf(sorted[0]), KeyOf(g)) {
      var i :| 0 <= i < |sorted| && sorted[i] == g;
    }
  }

  lemma {:induction false} FilterNone(facts: seq<Fact>, p: Fact -> bool)
    requires forall f | f in facts :: !p(f)
    ensures Filter(facts, p) == []
  {
    if facts != [] { assert facts[0] in facts; FilterNone(facts[1..], p); }
  }

  // ---------------------------------------------------------------- the segment

  function InSegmentOf(strategy: Strategy, facts: seq<Fact>, cutoff: SourceKey): Fact -> bool {
    (f: Fact) => InSegment(strategy, facts, cutoff, f)
  }

  /** The bounded part before the strategy: earlier than it, with no boundary from the fact onwards. */
  lemma InsideBefore(strategy: Strategy, facts: seq<Fact>, cutoff: SourceKey, eligible: seq<Fact>, before: seq<Fact>,
                     boundaries: seq<Fact>, f: Fact)
    requires forall g :: g in eligible <==> g in facts && AtMost(KeyOf(g), cutoff)
    requires forall g :: g in before <==> g in eligible && Before(KeyOf(g), StrategyKey(strategy))
    requires forall g :: g in boundaries <==> g in before && HardBoundary(g.kind)
    requires f in eligible
    ensures InSegment(strategy, facts, cutoff, f) && Before(KeyOf(f), StrategyKey(strategy)) <==>
            f in before && (boundaries == [] || Before(Latest(boundaries), KeyOf(f)))
  {
    var here := StrategyKey(strategy);
    if Before(KeyOf(f), here) {
      if boundaries != [] && !Before(Latest(boundaries), KeyOf(f)) {
        var b :| b in boundaries && KeyOf(b) == Latest(boundaries);
        assert b in facts && AtMost(KeyOf(f), KeyOf(b));
        assert Shielded(strategy, facts, cutoff, KeyOf(f));
      }
      if Shielded(strategy, facts, cutoff, KeyOf(f)) {
        var b :| b in facts && HardBoundary(b.kind) && AtMost(KeyOf(b), cutoff) &&
          ((AtMost(KeyOf(f), KeyOf(b)) && Before(KeyOf(b), here)) ||
            (Before(here, KeyOf(b)) && AtMost(KeyOf(b), KeyOf(f))));
        assert b in boundaries;
      }
    }
  }

  lemma InsideAfter(strategy: Strategy, facts: seq<Fact>, cutoff: SourceKey, eligible: seq<Fact>, after: seq<Fact>,
                    boundaries: seq<Fact>, f: Fact)
    requires forall g :: g in eligible <==> g in facts && AtMost(KeyOf(g), cutoff)
    requires forall g :: g in after <==> g in eligible && Before(StrategyKey(strategy), KeyOf(g))
    requires forall g :: g in boundaries <==> g in after && HardBoundary(g.kind)
    requires f in eligible
    ensures InSegment(strategy, facts, cutoff, f) && Before(StrategyKey(strategy), KeyOf(f)) <==>
            f in after && (boundaries == [] || Before(KeyOf(f), Earliest(boundaries)))
  {
    var here := StrategyKey(strategy);
    if Before(here, KeyOf(f)) {
      if boundaries != [] && !Before(KeyOf(f), Earliest(boundaries)) {
        var b :| b in boundaries && KeyOf(b) == Earliest(boundaries);
        assert b in facts && AtMost(KeyOf(b), KeyOf(f));
        assert Shielded(strategy, facts, cutoff, KeyOf(f));
      }
      if Shielded(strategy, facts, cutoff, KeyOf(f)) {
        var b :| b in facts && HardBoundary(b.kind) && AtMost(KeyOf(b), cutoff) &&
          ((AtMost(KeyOf(f), KeyOf(b)) && Before(KeyOf(b), here)) ||
            (Before(here, KeyOf(b)) && AtMost(KeyOf(b), KeyOf(f))));
        assert b in boundaries;
      }
    }
  }

  lemma LeftPart(eligible: seq<Fact>, left: Fact -> bool, lefts: seq<Fact>, inside: Fact -> bool)
    requires forall f | f in eligible :: inside(f) == (left(f) && (lefts == [] || Before(Latest(lefts), KeyOf(f))))
    ensures BoundedBefore(Filter(eligible, left), lefts) == Filter(eligible, inside)
  {
    if lefts == [] {
      FilterAgree(eligible, left, inside);
    } else {
      FilterTwice(eligible, left, LaterThan(Latest(lefts)), inside);
    }
  }

  lemma RightPart(eligible: seq<Fact>, right: Fact -> bool, rights: seq<Fact>, inside: Fact -> bool)
    requires forall f | f in eligible :: inside(f) == (right(f) && (rights == [] || Before(KeyOf(f), Earliest(rights))))
    ensures BoundedAfter(Filter(eligible, right), rights) == Filter(eligible, inside)
  {
    if rights == [] {
      FilterAgree(eligible, right, inside);
    } else {
      FilterTwice(eligible, right, EarlierThan(Earliest(rights)), inside);
    }
  }

  /** The segment is the sorted list of exactly the facts with no hard boundary at or between them and
      the strategy, up to the cutoff. */
  lemma SegmentIsExactly(strategy: Strategy, facts: seq<Fact>, cutoff: SourceKey)
    ensures BoundedSegment(strategy, facts, cutoff).0 == Sort(Filter(facts, InSegmentOf(strategy, facts, cutoff)))
    ensures forall f :: f in BoundedSegment(strategy, facts, cutoff).0 <==>
      f in facts && InSegment(strategy, facts, cutoff, f)
    ensures Sorted(BoundedSegment(strategy, facts, cutoff).0)
  {
    var here := StrategyKey(strategy);
    var eligible := Sort(Filter(facts, UpTo(cutoff)));
    SortIsSorted(Filter(facts, UpTo(cutoff)));
    var before, after := Filter(eligible, EarlierThan(here)), Filter(eligible, LaterThan(here));
    var lefts, rights := Filter(before, IsHard()), Filter(after, IsHard());
    var inside := InSegmentOf(strategy, facts, cutoff);
    var insideLeft := (f: Fact) => inside(f) && Before(KeyOf(f), here);
    var insideRight := (f: Fact) => inside(f) && Before(here, KeyOf(f));
    forall f | f in eligible
      ensures insideLeft(f) == (EarlierThan(here)(f) && (lefts == [] || Before(Latest(lefts), KeyOf(f))))
      ensures insideRight(f) == (LaterThan(here)(f) && (rights == [] || Before(KeyOf(f), Earliest(rights))))
    {
      InsideBefore(strategy, facts, cutoff, eligible, before, lefts, f);
      InsideAfter(strategy, facts, cutoff, eligible, after, rights, f);
    }
    LeftPart(eligible, EarlierThan(here), lefts, insideLeft);
    RightPart(eligible, LaterThan(here), rights, insideRight);
    SplitAround(eligible, here, insideLeft, insideRight, inside);
    FilterSort(Filter(facts, UpTo(cutoff)), inside);
    FilterTwice(facts, UpTo(cutoff), inside, inside);
    SortIsSorted(Filter(facts, inside));
  }

  // ---------------------------------------------------------------- what cannot influence the decision

  function WithoutEvidence(d: Decision): Decision {
    d.(boundaryEvidence := [])
  }

  lemma DecideIgnoresEvidence(strategy: Strategy, segment: seq<Fact>, e: seq<int>, e': seq<int>)
    ensures WithoutEvidence(Decide(strategy, segment, e)) == WithoutEvidence(Decide(strategy, segment, e'))
  {
  }

  lemma HiddenShieldsNothing(strategy: Strategy, facts: seq<Fact>, x: Fact, i: nat, cutoff: SourceKey, f: Fact)
    requires i <= |facts|
    requires Before(cutoff, KeyOf(x)) || Shielded(strategy, facts, cutoff, KeyOf(x))
    ensures InSegment(strategy, facts[..i] + [x] + facts[i..], cutoff, f) <==> InSegment(strategy, facts, cutoff, f)
    ensures !InSegment(strategy, facts[..i] + [x] + facts[i..], cutoff, x)
  {
    var more := facts[..i] + [x] + facts[i..];
    assert facts == facts[..i] + facts[i..];
    assert forall g :: g in more <==> g in facts || g == x;
    var here := StrategyKey(strategy);
    forall key ensures Shielded(strategy, more, cutoff, key) <==> Shielded(strategy, facts, cutoff, key) {
      if Shielded(strategy, more, cutoff, key) {
        var b :| b in more && HardBoundary(b.kind) && AtMost(KeyOf(b), cutoff) &&
          ((AtMost(key, KeyOf(b)) && Before(KeyOf(b), here)) || (Before(here, KeyOf(b)) && AtMost(KeyOf(b), key)));
        if b !in facts {
          assert b == x;
          var c :| c in facts && HardBoundary(c.kind) && AtMost(KeyOf(c), cutoff) &&
            ((AtMost(KeyOf(x), KeyOf(c)) && Before(KeyOf(c), here)) ||
              (Before(here, KeyOf(c)) && AtMost(KeyOf(c), KeyOf(x))));
        }
      }
      if Shielded(strategy, facts, cutoff, key) {
        var b :| b in facts && HardBoundary(b.kind) && AtMost(KeyOf(b), cutoff) &&
          ((AtMost(key, KeyOf(b)) && Before(KeyOf(b), here)) || (Before(here, KeyOf(b)) && AtMost(KeyOf(b), key)));
        assert b in more;
      }
    }
  }

  /** Adding (or removing) a fact beyond the nearest boundary on its side, or after the cutoff, changes
      nothing of the decision but its boundary evidence; after the cutoff not even that. */
  lemma HiddenFactChangesNothing(strategy: Strategy, facts: seq<Fact>, x: Fact, i: nat, cutoff: SourceKey)
    requires i <= |facts|
    requires Before(cutoff, KeyOf(x)) || Shielded(strategy, facts, cutoff, KeyOf(x))
    ensures var more := facts[..i] + [x] + facts[i..];
      && BoundedSegment(strategy, more, cutoff).0 == BoundedSegment(strategy, facts, cutoff).0
      && WithoutEvidence(SelectFragments(strategy, more, cutoff)) ==
         WithoutEvidence(SelectFragments(strategy, facts, cutoff))
      && (Before(cutoff, KeyOf(x)) ==>
         SelectFragments(strategy, more, cutoff) == SelectFragments(strategy, facts, cutoff))
  {
    var more := facts[..i] + [x] + facts[i..];
    var inside, inside' := InSegmentOf(strategy, facts, cutoff), InSegmentOf(strategy, more, cutoff);
    SegmentIsExactly(strategy, facts, cutoff);
    SegmentIsExactly(strategy, more, cutoff);
    forall f ensures inside'(f) == inside(f) && !inside'(x) { HiddenShieldsNothing(strategy, facts, x, i, cutoff, f); }
    InsertFiltered(facts, x, i, inside');
    FilterAgree(facts, inside, inside');
    DecideIgnoresEvidence(strategy, BoundedSegment(strategy, facts, cutoff).0,
                          BoundedSegment(strategy, facts, cutoff).1, BoundedSegment(strategy, more, cutoff).1);
    if Before(cutoff, KeyOf(x)) {
      InsertFiltered(facts, x, i, UpTo(cutoff));
    }
  }

  lemma {:induction false} InsertFiltered(facts: seq<Fact>, x: Fact, i: nat, p: Fact -> bool)
    requires i <= |facts| && !p(x)
    ensures Filter(facts[..i] + [x] + facts[i..], p) == Filter(facts, p)
    decreases i
  {
    var more := facts[..i] + [x] + facts[i..];
    if i == 0 {
      assert more[1..] == facts;
    } else {
      var rest := facts[1..];
      assert more[0] == facts[0] && more[1..] == rest[..i - 1] + [x] + rest[i - 1..];
      InsertFiltered(rest, x, i - 1, p);
    }
  }

  /** Different facts have different source keys. */
  ghost predicate DistinctKeys(facts: seq<Fact>) {
    forall f, g | f in facts && g in facts :: KeyOf(f) == KeyOf(g) ==> f == g
  }

  lemma SameMembers(a: seq<Fact>, b: seq<Fact>, f: Fact)
    requires multiset(a) == multiset(b)
    ensures f in a <==> f in b
  {
    assert f in a <==> f in multiset(a);
    assert f in b <==> f in multiset(b);
  }

  lemma HeadsAgree(a: seq<Fact>, b: seq<Fact>)
    requires Sorted(a) && Sorted(b) && multiset(a) == multiset(b) && DistinctKeys(a) && a != []
    ensures b != [] && a[0] == b[0]
  {
    SameMembers(a, b, a[0]);
    SameMembers(a, b, b[0]);
    HeadIsEarliest(a);
    HeadIsEarliest(b);
  }

  lemma SameTails(a: seq<Fact>, b: seq<Fact>)
    requires a != [] && b != [] && a[0] == b[0] && multiset(a) == multiset(b)
    ensures multiset(a[1..]) == multiset(b[1..])
  {
    assert a == [a[0]] + a[1..] && b == [b[0]] + b[1..];
    assert multiset(a[1..]) == multiset(a) - multiset{a[0]} == multiset(b[1..]);
  }

  lemma SameLength(a: seq<Fact>, b: seq<Fact>)
    requires multiset(a) == multiset(b)
    ensures |a| == |b|
  {
    assert |a| == |multiset(a)| == |b|;
  }

  lemma {:induction false} SortedIsUnique(a: seq<Fact>, b: seq<Fact>)
    requires Sorted(a) && Sorted(b) && multiset(a) == multiset(b) && DistinctKeys(a)
    ensures a == b
  {
    SameLength(a, b);
    if a != [] {
      HeadsAgree(a, b);
      SameTails(a, b);
      SortedIsUnique(a[1..], b[1..]);
      assert a == [a[0]] + a[1..] && b == [b[0]] + b[1..];
    }
  }

  lemma {:induction false} FilterCounts(facts: seq<Fact>, p: Fact -> bool, f: Fact)
    ensures multiset(Filter(facts, p))[f] == if p(f) then multiset(facts)[f] else 0
  {
    if facts != [] {
      FilterCounts(facts[1..], p, f);
      assert facts == [facts[0]] + facts[1..];
    }
  }

  /** Only which facts there are matters, not the order they come in. */
  lemma PermutingFactsChangesNothing(strategy: Strategy, facts: seq<Fact>, permuted: seq<Fact>, cutoff: SourceKey)
    requires DistinctKeys(facts) && multiset(permuted) == multiset(facts)
    ensures SelectFragments(strategy, permuted, cutoff) == SelectFragments(strategy, facts, cutoff)
  {
    var a, b := Filter(facts, UpTo(cutoff)), Filter(permuted, UpTo(cutoff));
    forall f ensures multiset(a)[f] == multiset(b)[f] {
      FilterCounts(facts, UpTo(cutoff), f);
      FilterCounts(permuted, UpTo(cutoff), f);
    }
    assert multiset(a) == multiset(b);
    SortIsSorted(a);
    SortIsSorted(b);
    SortedIsUnique(Sort(a), Sort(b));
  }
}
