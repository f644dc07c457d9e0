/** What any run of the apply / rollback engine does: all or nothing, reversible,
    idempotent, and equal in effect to the rendered rollback script. */
module TerminalizationTheorems {
  import opened Options
  import opened Terminalization

  /** The batch action is the one that settles the target set. */
  ghost predicate SettlesTarget(plan: Plan) {
    && (exists a :: a in plan.actions && BatchAction(plan, a))
    && (forall a | a in plan.actions && a.key.table == BATCHES :: BatchAction(plan, a))
  }

  predicate BatchAction(plan: Plan, a: Action) {
    && a.key == Key(BATCHES, TARGET) && "status" in a.before && "status" in a.after && "status" !in Ignored(plan, a)
    && a.before["status"] == Text("recovery_required")
    && a.after["status"].Text? && a.after["status"].s != "recovery_required" && a.after["status"].s !in UNSAFE
  }

  /** An uncompared column ends right if it is written, or already held its final value. */
  predicate IgnoredColumnsEndRight(rows: Rows, plan: Plan, steps: seq<Action>)
    requires Readable(rows, steps)
  {
    forall i | 0 <= i < |steps| ::
      forall c | c in Ignored(plan, steps[i]) && c in steps[i].before && c in steps[i].after ::
        steps[i].before[c] != steps[i].after[c] || rows[steps[i].key][c] == steps[i].after[c]
  }

  lemma OrientKeeps(plan: Plan, reverse: bool)
    requires WellFormed(plan)
    ensures DistinctKeys(Orient(plan.actions, reverse))
    ensures forall a | a in Orient(plan.actions, reverse) :: WellFormedAction(a, Ignored(plan, a))
  {
    var steps := Orient(plan.actions, reverse);
    forall i | 0 <= i < |steps| ensures WellFormedAction(steps[i], Ignored(plan, steps[i])) {
      var a := if reverse then plan.actions[|steps| - 1 - i] else plan.actions[i];
      assert a in plan.actions;
      assert Changed(steps[i]) == Changed(a);
    }
  }

  lemma AssignOne(rows: Rows, mid: Rows, init: seq<Action>, a: Action)
    requires IsAssigned(rows, mid, init) && a.key in rows && "id" in rows[a.key]
    requires forall i | 0 <= i < |init| :: init[i].key != a.key
    ensures IsAssigned(rows, mid[a.key := mid[a.key] + Assignments(a)], init + [a])
  {
    var final := mid[a.key := mid[a.key] + Assignments(a)];
    var steps := init + [a];
    assert final.Keys == rows.Keys;
    assert Keyed(final);
    forall i | 0 <= i < |steps|
      ensures steps[i].key in rows && final[steps[i].key] == rows[steps[i].key] + Assignments(steps[i])
    {
      if i < |init| { assert steps[i] == init[i]; }
    }
    forall k | k in rows && (forall i | 0 <= i < |steps| :: steps[i].key != k) ensures final[k] == rows[k] {
      assert steps[|init|].key != k;
      forall i | 0 <= i < |init| ensures init[i].key != k { assert steps[i] == init[i]; }
    }
  }

  lemma StepAssigns(rows: Rows, plan: Plan, init: seq<Action>, mid: Rows, a: Action)
    requires Keyed(rows) && IsAssigned(rows, mid, init)
    requires WellFormedAction(a, Ignored(plan, a)) && Read(rows, a).Some?
    requires EqualUnder(Ignored(plan, a), Read(rows, a).value, a.before)
    requires forall i | 0 <= i < |init| :: init[i].key != a.key
    ensures CasUpdate(mid, a, Ignored(plan, a)).Some?
    ensures IsAssigned(rows, CasUpdate(mid, a, Ignored(plan, a)).value, init + [a])
  {
    assert mid[a.key] == rows[a.key];
    MatchesIffEqual(rows, a, Ignored(plan, a));
    CasUpdateIs(mid, a, Ignored(plan, a));
    AssignOne(rows, mid, init, a);
  }

  lemma CasAllSnoc(rows: Rows, plan: Plan, init: seq<Action>, a: Action)
    ensures CasAll(rows, plan, init + [a]) ==
            match CasAll(rows, plan, init) { case None => None case Some(mid) => CasUpdate(mid, a, Ignored(plan, a)) }
  {
    assert (init + [a])[..|init|] == init;
  }

  lemma CasAllStep(rows: Rows, plan: Plan, init: seq<Action>, a: Action)
    requires Keyed(rows) && CasAll(rows, plan, init).Some? && IsAssigned(rows, CasAll(rows, plan, init).value, init)
    requires WellFormedAction(a, Ignored(plan, a)) && Read(rows, a).Some?
    requires EqualUnder(Ignored(plan, a), Read(rows, a).value, a.before)
    requires forall i | 0 <= i < |init| :: init[i].key != a.key
    ensures CasAll(rows, plan, init + [a]).Some? && IsAssigned(rows, CasAll(rows, plan, init + [a]).value, init + [a])
  {
    StepAssigns(rows, plan, init, CasAll(rows, plan, init).value, a);
    CasAllSnoc(rows, plan, init, a);
  }

  lemma NothingAssigned(rows: Rows, plan: Plan)
    requires Keyed(rows)
    ensures CasAll(rows, plan, []) == Some(rows) && IsAssigned(rows, rows, [])
  {
  }

  lemma AssignableSplit(rows: Rows, plan: Plan, steps: seq<Action>) returns (init: seq<Action>, a: Action)
    requires Assignable(rows, plan, steps) && steps != []
    ensures steps == init + [a] && |init| < |steps| && Assignable(rows, plan, init)
    ensures WellFormedAction(a, Ignored(plan, a)) && Read(rows, a).Some?
    ensures EqualUnder(Ignored(plan, a), Read(rows, a).value, a.before)
    ensures forall i | 0 <= i < |init| :: init[i].key != a.key
  {
    init, a := steps[..|steps| - 1], steps[|steps| - 1];
    assert a in steps && forall b | b in init :: b in steps;
  }

  lemma {:induction false} CasAllAssigns(rows: Rows, plan: Plan, steps: seq<Action>)
    requires Assignable(rows, plan, steps)
    ensures CasAll(rows, plan, steps).Some? && IsAssigned(rows, CasAll(rows, plan, steps).value, steps)
    decreases |steps|
  {
    if steps == [] {
      NothingAssigned(rows, plan);
    } else {
      var init, a := AssignableSplit(rows, plan, steps);
      CasAllAssigns(rows, plan, init);
      CasAllStep(rows, plan, init, a);
    }
  }

  /** Where one row ends, and when that is exactly its after-image. */
  lemma RowEndsExactlyIff(row: Row, a: Action, ignored: set<string>)
    requires WellFormedAction(a, ignored) && a.before.Keys <= row.Keys
    requires EqualUnder(ignored, Columns(row, a.before.Keys), a.before)
    ensures Columns(row + Assignments(a), a.before.Keys) == a.after <==>
            forall c | c in ignored && c in a.before && c in a.after ::
              a.before[c] != a.after[c] || row[c] == a.after[c]
  {
    var final := Columns(row + Assignments(a), a.before.Keys);
    assert final.Keys == a.after.Keys;
    var left, right := Columns(row, a.before.Keys) - ignored, a.before - ignored;
    forall c | c in a.before && c !in ignored ensures final[c] == a.after[c] {
      assert c in right && left[c] == right[c];
    }
  }

  lemma ExactlyIff(rows: Rows, final: Rows, plan: Plan, steps: seq<Action>)
    requires Assignable(rows, plan, steps) && IsAssigned(rows, final, steps)
    ensures Readable(rows, steps)
    ensures Exactly(final, steps) <==> IgnoredColumnsEndRight(rows, plan, steps)
  {
    forall i | 0 <= i < |steps|
      ensures Read(final, steps[i]) == Some(steps[i].after) <==>
              forall c | c in Ignored(plan, steps[i]) && c in steps[i].before && c in steps[i].after ::
                steps[i].before[c] != steps[i].after[c] || rows[steps[i].key][c] == steps[i].after[c]
    {
      assert steps[i] in steps;
      RowEndsExactlyIff(rows[steps[i].key], steps[i], Ignored(plan, steps[i]));
    }
  }

  lemma CountsFollowKeys(rows: Rows, final: Rows, counts: map<string, nat>)
    requires rows.Keys == final.Keys
    ensures CountsAre(rows, counts) <==> CountsAre(final, counts)
  {
    forall t ensures TableCount(rows, t) == TableCount(final, t) {
      assert (set k | k in rows && k.table == t) == (set k | k in final && k.table == t);
    }
  }

  lemma RecoveryHas(rows: Rows, id: int)
    ensures id in RecoveryIds(rows) <==>
      Key(BATCHES, id) in rows && StatusOf(rows[Key(BATCHES, id)]) == Text("recovery_required")
  {
    if Key(BATCHES, id) in rows && StatusOf(rows[Key(BATCHES, id)]) == Text("recovery_required") {
      assert Key(BATCHES, id).pk == id;
    }
  }

  lemma RecoveryMoves(rows: Rows, final: Rows, reverse: bool, id: int)
    requires rows.Keys == final.Keys && Key(BATCHES, TARGET) in rows
    requires RecoveryIds(rows) == if reverse then {} else {TARGET}
    requires (StatusOf(final[Key(BATCHES, TARGET)]) == Text("recovery_required")) == reverse
    requires forall k | k in rows && k.table == BATCHES && k.pk != TARGET :: final[k] == rows[k]
    ensures id in RecoveryIds(final) <==> reverse && id == TARGET
  {
    RecoveryHas(rows, id);
    RecoveryHas(final, id);
  }

  lemma QuietMoves(rows: Rows, final: Rows)
    requires rows.Keys == final.Keys && NoneUnsafe(rows) && Key(BATCHES, TARGET) in rows
    requires forall s | s in UNSAFE :: StatusOf(final[Key(BATCHES, TARGET)]) != Text(s)
    requires forall k | k in rows && k.table == BATCHES && k.pk != TARGET :: final[k] == rows[k]
    ensures NoneUnsafe(final)
  {
    forall k, s | k in final && k.table == BATCHES && s in UNSAFE ensures StatusOf(final[k]) != Text(s) {
      if k.pk == TARGET { assert k == Key(BATCHES, TARGET); }
    }
  }

  /** The batch row is the only one of its table to move, so the target set closes, or reopens. */
  lemma BatchRowMoves(rows: Rows, final: Rows, reverse: bool)
    requires rows.Keys == final.Keys && QuietTargets(rows, reverse) && Key(BATCHES, TARGET) in rows
    requires (StatusOf(final[Key(BATCHES, TARGET)]) == Text("recovery_required")) == reverse
    requires forall s | s in UNSAFE :: StatusOf(final[Key(BATCHES, TARGET)]) != Text(s)
    requires forall k | k in rows && k.table == BATCHES && k.pk != TARGET :: final[k] == rows[k]
    ensures QuietTargets(final, !reverse)
  {
    QuietMoves(rows, final);
    forall id ensures id in RecoveryIds(final) <==> reverse && id == TARGET { RecoveryMoves(rows, final, reverse, id); }
  }

  /** Every step of either direction is a planned action or its reversal, under the same key. */
  lemma StepKeys(plan: Plan, reverse: bool, n: nat)
    requires n < |plan.actions|
    ensures exists b :: b in plan.actions && Orient(plan.actions, reverse)[n].key == b.key
  {
    var b := if reverse then plan.actions[|plan.actions| - 1 - n] else plan.actions[n];
    assert b in plan.actions;
  }

  lemma OtherBatchRowStays(rows: Rows, final: Rows, plan: Plan, reverse: bool, k: Key)
    requires SettlesTarget(plan) && IsAssigned(rows, final, Orient(plan.actions, reverse))
    requires k in rows && k.table == BATCHES && k.pk != TARGET
    ensures final[k] == rows[k]
  {
    var steps := Orient(plan.actions, reverse);
    forall n | 0 <= n < |steps| ensures steps[n].key != k {
      StepKeys(plan, reverse, n);
      var b :| b in plan.actions && steps[n].key == b.key;
    }
  }

  lemma BatchStep(plan: Plan, reverse: bool) returns (i: nat, a: Action)
    requires SettlesTarget(plan)
    ensures i < |plan.actions| && BatchAction(plan, a)
    ensures Orient(plan.actions, reverse)[i] == if reverse then Swap(a) else a
  {
    a :| a in plan.actions && BatchAction(plan, a);
    var j :| 0 <= j < |plan.actions| && plan.actions[j] == a;
    i := if reverse then |plan.actions| - 1 - j else j;
  }

  lemma EndStatus(final: Rows, step: Action)
    requires Read(final, step) == Some(step.after) && "status" in step.before && "status" in step.after
    ensures step.key in final && StatusOf(final[step.key]) == step.after["status"]
  {
    assert final[step.key]["status"] == step.after["status"];
  }

  lemma BatchRowEnds(rows: Rows, final: Rows, plan: Plan, reverse: bool)
    requires SettlesTarget(plan)
    requires var steps := Orient(plan.actions, reverse); IsAssigned(rows, final, steps) && Exactly(final, steps)
    ensures Key(BATCHES, TARGET) in rows && Key(BATCHES, TARGET) in final
    ensures (StatusOf(final[Key(BATCHES, TARGET)]) == Text("recovery_required")) == reverse
    ensures forall s | s in UNSAFE :: StatusOf(final[Key(BATCHES, TARGET)]) != Text(s)
  {
    var i, a := BatchStep(plan, reverse);
    EndStatus(final, Orient(plan.actions, reverse)[i]);
    RecoveryIsSafe();
  }

  lemma RecoveryIsSafe()
    ensures "recovery_required" !in UNSAFE
  {
    assert |"recovery_required"| == 17 && |"executing"| == 9 && |"reserved"| == 8 && |"submitted"| == 9;
    assert |"submit_unknown"| == 14 && |"reconciling"| == 11;
  }

  lemma TargetSetMoves(rows: Rows, final: Rows, plan: Plan, reverse: bool)
    requires WellFormed(plan) && SettlesTarget(plan) && Keyed(rows)
    requires var steps := Orient(plan.actions, reverse); IsAssigned(rows, final, steps) && Exactly(final, steps)
    requires QuietTargets(rows, reverse)
    ensures QuietTargets(final, !reverse)
  {
    BatchRowEnds(rows, final, plan, reverse);
    forall k | k in rows && k.table == BATCHES && k.pk != TARGET ensures final[k] == rows[k] {
      OtherBatchRowStays(rows, final, plan, reverse, k);
    }
    BatchRowMoves(rows, final, reverse);
  }

  /** The opening checks of a call that will start updating. */
  ghost predicate Opens(rows: Rows, plan: Plan, reverse: bool) {
    var steps := Orient(plan.actions, reverse);
    && CountsAre(rows, plan.counts) && Readable(rows, steps)
    && !RowsAre(rows, plan, steps, true) && RowsAre(rows, plan, steps, false)
    && QuietTargets(rows, reverse)
  }

  lemma UpdatesReach(rows: Rows, plan: Plan, reverse: bool)
    requires WellFormed(plan) && Keyed(rows) && RowsAre(rows, plan, Orient(plan.actions, reverse), false)
    ensures var steps := Orient(plan.actions, reverse);
      && Readable(rows, steps)
      && CasAll(rows, plan, steps).Some?
      && IsAssigned(rows, CasAll(rows, plan, steps).value, steps)
      && (Exactly(CasAll(rows, plan, steps).value, steps) <==> IgnoredColumnsEndRight(rows, plan, steps))
  {
    var steps := Orient(plan.actions, reverse);
    OrientKeeps(plan, reverse);
    CasAllAssigns(rows, plan, steps);
    ExactlyIff(rows, CasAll(rows, plan, steps).value, plan, steps);
  }

  /** After the opening checks only the updates and the closing checks decide. */
  lemma OpenedConcludes(rows: Rows, plan: Plan, reverse: bool, quickAfter: bool)
    requires Opens(rows, plan, reverse)
    ensures var steps := Orient(plan.actions, reverse);
      Mutate(rows, plan, reverse, true, quickAfter) ==
        Concluded(rows, CasAll(rows, plan, steps), plan, steps, reverse, quickAfter)
  {
  }

  lemma ConcludedDecides(rows: Rows, final: Rows, plan: Plan, steps: seq<Action>, reverse: bool)
    requires CountsAre(final, plan.counts) && (Exactly(final, steps) ==> QuietTargets(final, !reverse))
    ensures Concluded(rows, Some(final), plan, steps, reverse, true).0 ==
            if Exactly(final, steps) then Done else Refused("postcondition_failed")
  {
  }

  /** Once the opening checks pass, the row-count, table-count and closing target-set refusals cannot
      happen; the call completes exactly when every uncompared column ends right, and is otherwise
      refused at the postcondition. */
  lemma OpeningChecksDecide(rows: Rows, plan: Plan, reverse: bool)
    requires WellFormed(plan) && SettlesTarget(plan) && Keyed(rows) && Opens(rows, plan, reverse)
    ensures Mutate(rows, plan, reverse, true, true).0 ==
            if IgnoredColumnsEndRight(rows, plan, Orient(plan.actions, reverse)) then Done
            else Refused("postcondition_failed")
  {
    var steps := Orient(plan.actions, reverse);
    UpdatesReach(rows, plan, reverse);
    var final := CasAll(rows, plan, steps).value;
    CountsFollowKeys(rows, final, plan.counts);
    if Exactly(final, steps) { TargetSetMoves(rows, final, plan, reverse); }
    OpenedConcludes(rows, plan, reverse, true);
    ConcludedDecides(rows, final, plan, steps, reverse);
  }

  lemma RefusedLeaves(rows: Rows, plan: Plan, reverse: bool, quick: bool, quickAfter: bool)
    requires Mutate(rows, plan, reverse, quick, quickAfter).0 != Done
    ensures Mutate(rows, plan, reverse, quick, quickAfter).1 == rows
  {
  }

  lemma DoneReaches(rows: Rows, plan: Plan, reverse: bool, quick: bool, quickAfter: bool)
    requires WellFormed(plan) && Keyed(rows) && Mutate(rows, plan, reverse, quick, quickAfter).0 == Done
    ensures var steps, final := Orient(plan.actions, reverse), Mutate(rows, plan, reverse, quick, quickAfter).1;
      && Exactly(final, steps) && IsAssigned(rows, final, steps)
      && QuietTargets(rows, reverse) && QuietTargets(final, !reverse)
  {
    DoneMeans(rows, plan, reverse, quick, quickAfter);
    UpdatesReach(rows, plan, reverse);
  }

  /** Every call either leaves the database as it was, or leaves every action row exactly at its target
      and every other row as it was. */
  lemma AllOrNothing(rows: Rows, plan: Plan, reverse: bool, quick: bool, quickAfter: bool)
    requires WellFormed(plan) && Keyed(rows)
    ensures var (outcome, final) := Mutate(rows, plan, reverse, quick, quickAfter);
      var steps := Orient(plan.actions, reverse);
      && (outcome != Done ==> final == rows)
      && (outcome == Done ==> && Exactly(final, steps) && IsAssigned(rows, final, steps)
                              && QuietTargets(rows, reverse) && QuietTargets(final, !reverse))
  {
    if Mutate(rows, plan, reverse, quick, quickAfter).0 == Done {
      DoneReaches(rows, plan, reverse, quick, quickAfter);
    } else {
      RefusedLeaves(rows, plan, reverse, quick, quickAfter);
    }
  }

  lemma DoneMeans(rows: Rows, plan: Plan, reverse: bool, quick: bool, quickAfter: bool)
    requires Mutate(rows, plan, reverse, quick, quickAfter).0 == Done
    ensures var steps, final := Orient(plan.actions, reverse), Mutate(rows, plan, reverse, quick, quickAfter).1;
      && Opens(rows, plan, reverse) && CasAll(rows, plan, steps) == Some(final)
      && Exactly(final, steps) && CountsAre(final, plan.counts) && QuietTargets(final, !reverse)
  {
    var steps := Orient(plan.actions, reverse);
    DoneOpened(rows, plan, reverse, quick, quickAfter);
    OpenedConcludes(rows, plan, reverse, quickAfter);
    ConcludedDone(rows, CasAll(rows, plan, steps), plan, steps, reverse, quickAfter);
  }

  lemma DoneOpened(rows: Rows, plan: Plan, reverse: bool, quick: bool, quickAfter: bool)
    requires Mutate(rows, plan, reverse, quick, quickAfter).0 == Done
    ensures quick && Opens(rows, plan, reverse)
  {
  }

  lemma ConcludedDone(rows: Rows, updated: Option<Rows>, plan: Plan, steps: seq<Action>, reverse: bool,
      quickAfter: bool)
    ensures var (outcome, final) := Concluded(rows, updated, plan, steps, reverse, quickAfter);
      outcome == Done ==>
        updated == Some(final) && Exactly(final, steps) && CountsAre(final, plan.counts) &&
          QuietTargets(final, !reverse)
  {
  }

  lemma ExactlyIsRowsAre(rows: Rows, plan: Plan, reverse: bool)
    requires WellFormed(plan) && Exactly(rows, Orient(plan.actions, reverse))
    ensures RowsAre(rows, plan, Orient(plan.actions, reverse), true)
    ensures RowsAre(rows, plan, Orient(plan.actions, !reverse), false)
    ensures IgnoredColumnsEndRight(rows, plan, Orient(plan.actions, !reverse))
  {
    var there, back := Orient(plan.actions, reverse), Orient(plan.actions, !reverse);
    var n := |plan.actions|;
    OrientKeeps(plan, reverse);
    forall i | 0 <= i < n
      ensures Read(rows, back[i]) == Some(back[i].before)
      ensures forall c | c in back[i].before :: c in rows[back[i].key] && rows[back[i].key][c] == back[i].before[c]
    {
      var a := there[n - 1 - i];
      assert a in there && back[i] == Swap(a);
      assert Read(rows, a) == Some(a.after);
      forall c | c in back[i].before ensures c in rows[a.key] && rows[a.key][c] == back[i].before[c] {
        assert c in Columns(rows[a.key], a.before.Keys) && Columns(rows[a.key], a.before.Keys)[c] == a.after[c];
      }
    }
  }

  /** A second apply finds its work done. */
  lemma SecondCallIsAlready(rows: Rows, plan: Plan, reverse: bool, quick: bool, quickAfter: bool, again: bool)
    requires WellFormed(plan) && Keyed(rows)
    requires Mutate(rows, plan, reverse, quick, quickAfter).0 == Done
    ensures var final := Mutate(rows, plan, reverse, quick, quickAfter).1;
      Mutate(final, plan, reverse, true, again) == (Already, final)
  {
    DoneMeans(rows, plan, reverse, quick, quickAfter);
    ExactlyIsRowsAre(Mutate(rows, plan, reverse, quick, quickAfter).1, plan, reverse);
  }

  /** The rows before an apply and after its rollback differ at most in columns the policy ignores. */
  ghost predicate SameUnderPolicy(rows: Rows, restored: Rows, plan: Plan) {
    && restored.Keys == rows.Keys
    && (forall k | k in rows && (forall a | a in plan.actions :: a.key != k) :: restored[k] == rows[k])
    && (forall a | a in plan.actions && a.key in rows ::
       restored[a.key] - Ignored(plan, a) == rows[a.key] - Ignored(plan, a))
  }

  lemma NotYetRolledBack(rows: Rows, plan: Plan)
    requires WellFormed(plan) && SettlesTarget(plan) && Exactly(rows, plan.actions)
    ensures !RowsAre(rows, plan, Orient(plan.actions, true), true)
  {
    var n := |plan.actions|;
    var a :| a in plan.actions && BatchAction(plan, a);
    var j :| 0 <= j < n && plan.actions[j] == a;
    var back := Orient(plan.actions, true)[n - 1 - j];
    assert back == Swap(a);
    assert Read(rows, plan.actions[j]) == Some(a.after);
    var actual, expected := Read(rows, back).value - Ignored(plan, a), a.before - Ignored(plan, a);
    assert Read(rows, back) == Some(a.after);
    assert actual["status"] != expected["status"];
  }

  lemma RoundTripRow(row: Row, mid: Row, end: Row, a: Action, ignored: set<string>)
    requires WellFormedAction(a, ignored) && a.before.Keys <= row.Keys
    requires EqualUnder(ignored, Columns(row, a.before.Keys), a.before)
    requires mid == row + Assignments(a) && end == mid + Assignments(Swap(a))
    ensures end - ignored == row - ignored
  {
    assert Changed(a) == Changed(Swap(a));
    var left, right := Columns(row, a.before.Keys) - ignored, a.before - ignored;
    assert end.Keys == row.Keys;
    forall c | c in row && c !in ignored ensures end[c] == row[c] {
      if c in Changed(a) { assert c in right && left[c] == right[c]; }
    }
  }

  /** Apply then rollback: the rollback completes, every action row is its before-image again, and
      nothing else differs from the start but ignored columns. */
  lemma ApplyThenRollbackRestores(rows: Rows, plan: Plan, quick: bool, quickAfter: bool)
    requires WellFormed(plan) && SettlesTarget(plan) && Keyed(rows)
    requires Mutate(rows, plan, false, quick, quickAfter).0 == Done
    ensures var applied := Mutate(rows, plan, false, quick, quickAfter).1;
      var (outcome, restored) := Mutate(applied, plan, true, true, true);
      && outcome == Done
      && (forall a | a in plan.actions :: Read(restored, a) == Some(a.before))
      && SameUnderPolicy(rows, restored, plan)
  {
    var applied := Mutate(rows, plan, false, quick, quickAfter).1;
    var back := Orient(plan.actions, true);
    AllOrNothing(rows, plan, false, quick, quickAfter);
    DoneMeans(rows, plan, false, quick, quickAfter);
    assert Orient(plan.actions, false) == plan.actions;
    ExactlyIsRowsAre(applied, plan, false);
    NotYetRolledBack(applied, plan);
    CountsFollowKeys(rows, applied, plan.counts);
    assert Opens(applied, plan, true);
    OpeningChecksDecide(applied, plan, true);
    AllOrNothing(applied, plan, true, true, true);
    var restored := Mutate(applied, plan, true, true, true).1;
    RestoredRows(rows, applied, restored, plan);
  }

  lemma AppliedRow(rows: Rows, applied: Rows, plan: Plan, j: nat)
    requires j < |plan.actions| && IsAssigned(rows, applied, plan.actions) && RowsAre(rows, plan, plan.actions, false)
    ensures var a := plan.actions[j];
      && a.key in rows && a.key in applied && applied[a.key] == rows[a.key] + Assignments(a)
      && a.before.Keys <= rows[a.key].Keys
      && EqualUnder(Ignored(plan, a), Columns(rows[a.key], a.before.Keys), a.before)
  {
  }

  lemma BackRow(applied: Rows, restored: Rows, plan: Plan, j: nat)
    requires j < |plan.actions|
    requires IsAssigned(applied, restored, Orient(plan.actions, true)) && Exactly(restored, Orient(plan.actions, true))
    ensures var a := plan.actions[j];
      && a.key in applied && a.key in restored && restored[a.key] == applied[a.key] + Assignments(Swap(a))
      && Read(restored, Swap(a)) == Some(a.before)
  {
    var i := |plan.actions| - 1 - j;
    assert Orient(plan.actions, true)[i] == Swap(plan.actions[j]);
    AssignedStep(applied, restored, Orient(plan.actions, true), i);
  }

  lemma AssignedStep(rows: Rows, final: Rows, steps: seq<Action>, i: nat)
    requires i < |steps| && IsAssigned(rows, final, steps) && Exactly(final, steps)
    ensures steps[i].key in rows && steps[i].key in final && Read(final, steps[i]) == Some(steps[i].after)
    ensures final[steps[i].key] == rows[steps[i].key] + Assignments(steps[i])
  {
  }

  lemma ReadSwap(rows: Rows, a: Action, ignored: set<string>)
    requires WellFormedAction(a, ignored)
    ensures Read(rows, Swap(a)) == Read(rows, a)
  {
  }

  lemma RestoredRow(rows: Rows, applied: Rows, restored: Rows, plan: Plan, j: nat)
    requires WellFormed(plan) && j < |plan.actions|
    requires IsAssigned(rows, applied, plan.actions) && RowsAre(rows, plan, plan.actions, false)
    requires IsAssigned(applied, restored, Orient(plan.actions, true)) && Exactly(restored, Orient(plan.actions, true))
    ensures var a := plan.actions[j];
      && Read(restored, a) == Some(a.before) && a.key in rows && a.key in restored
      && restored[a.key] - Ignored(plan, a) == rows[a.key] - Ignored(plan, a)
  {
    var a := plan.actions[j];
    assert a in plan.actions;
    AppliedRow(rows, applied, plan, j);
    BackRow(applied, restored, plan, j);
    ReadSwap(restored, a, Ignored(plan, a));
    RoundTripRow(rows[a.key], applied[a.key], restored[a.key], a, Ignored(plan, a));
  }

  lemma RestoredRows(rows: Rows, applied: Rows, restored: Rows, plan: Plan)
    requires WellFormed(plan)
    requires IsAssigned(rows, applied, plan.actions) && RowsAre(rows, plan, plan.actions, false)
    requires IsAssigned(applied, restored, Orient(plan.actions, true)) && Exactly(restored, Orient(plan.actions, true))
    ensures forall a | a in plan.actions :: Read(restored, a) == Some(a.before)
    ensures SameUnderPolicy(rows, restored, plan)
  {
    var n := |plan.actions|;
    forall a | a in plan.actions
      ensures Read(restored, a) == Some(a.before) && a.key in rows
      ensures restored[a.key] - Ignored(plan, a) == rows[a.key] - Ignored(plan, a)
    {
      var j :| 0 <= j < n && plan.actions[j] == a;
      RestoredRow(rows, applied, restored, plan, j);
    }
    forall k | k in rows && (forall a | a in plan.actions :: a.key != k) ensures restored[k] == rows[k] {
      UntouchedKey(rows, applied, restored, plan, k);
    }
  }

  lemma UntouchedKey(rows: Rows, applied: Rows, restored: Rows, plan: Plan, k: Key)
    requires IsAssigned(rows, applied, plan.actions) && IsAssigned(applied, restored, Orient(plan.actions, true))
    requires k in rows && (forall a | a in plan.actions :: a.key != k)
    ensures restored[k] == rows[k]
  {
    var n, back := |plan.actions|, Orient(plan.actions, true);
    forall i | 0 <= i < n ensures plan.actions[i].key != k && back[i].key != k {
      assert plan.actions[i] in plan.actions && plan.actions[n - 1 - i] in plan.actions;
    }
  }

  // ---------------------------------------------------------------- the rendered rollback script

  datatype Statement = Update(table: string, assignments: Row, predicates: Row) | GuardChanges

  /** The statements of the script, in order: one guarded update per step. */
  function Render(plan: Plan, steps: seq<Action>): seq<Statement> {
    if steps == [] then []
    else
      [Update(steps[0].key.table, Assignments(steps[0]), Predicates(steps[0], Ignored(plan, steps[0]))), GuardChanges]
      + Render(plan, steps[1..])
  }

  /** The rollback script: last action first, from its after-image to its before-image. */
  function RollbackScript(plan: Plan): seq<Statement> {
    Render(plan, Orient(plan.actions, true))
  }

  /** Running the script: `changes()` is the number of rows of the last update, and a guard that is not
      one (or an update that sets nothing) aborts the transaction. */
  function Execute(rows: Rows, script: seq<Statement>, changes: nat): Option<Rows> {
    if script == [] then Some(rows)
    else
      match script[0]
      case Update(table, assignments, predicates) =>
        if assignments == map[] then None
        else Execute(SqlUpdate(rows, table, assignments, predicates), script[1..], |Hits(rows, table, predicates)|)
      case GuardChanges => if changes == 1 then Execute(rows, script[1..], changes) else None
  }

  function CasFrom(rows: Option<Rows>, plan: Plan, steps: seq<Action>): Option<Rows>
    decreases |steps|
  {
    if rows == None || steps == [] then rows
    else CasFrom(CasUpdate(rows.value, steps[0], Ignored(plan, steps[0])), plan, steps[1..])
  }

  lemma {:induction false} CasAllFromFront(rows: Rows, plan: Plan, steps: seq<Action>)
    ensures CasAll(rows, plan, steps) == CasFrom(Some(rows), plan, steps)
    decreases |steps|
  {
    if |steps| == 1 {
      assert steps[..0] == [] && steps[1..] == [];
    } else if |steps| > 1 {
      CasFromSnoc(Some(rows), plan, steps);
      CasAllFromFront(rows, plan, steps[..|steps| - 1]);
    }
  }

  lemma {:induction false} CasFromSnoc(rows: Option<Rows>, plan: Plan, steps: seq<Action>)
    requires steps != []
    ensures CasFrom(rows, plan, steps) ==
      match CasFrom(rows, plan, steps[..|steps| - 1])
      case None => None
      case Some(mid) => CasUpdate(mid, steps[|steps| - 1], Ignored(plan, steps[|steps| - 1]))
    decreases |steps|
  {
    if rows.Some? {
      var next := CasUpdate(rows.value, steps[0], Ignored(plan, steps[0]));
      if |steps| > 1 {
        CasFromSnoc(next, plan, steps[1..]);
        assert steps[..|steps| - 1][1..] == steps[1..][..|steps| - 2];
      } else {
        assert CasFrom(next, plan, steps[1..]) == next;
      }
    }
  }

  lemma ExecuteGuardedUpdate(rows: Rows, a: Action, ignored: set<string>, rest: seq<Statement>, changes: nat)
    requires WellFormedAction(a, ignored)
    ensures var script := [Update(a.key.table, Assignments(a), Predicates(a, ignored)), GuardChanges] + rest;
      Execute(rows, script, changes) ==
      match CasUpdate(rows, a, ignored) { case None => None case Some(next) => Execute(next, rest, 1) }
  {
    assert Assignments(a).Keys == Changed(a);
    var p := Predicates(a, ignored);
    var script := [Update(a.key.table, Assignments(a), p), GuardChanges] + rest;
    assert script[1..] == [GuardChanges] + rest && script[1..][1..] == rest;
    var hits := |Hits(rows, a.key.table, p)|;
    var next := SqlUpdate(rows, a.key.table, Assignments(a), p);
    assert Execute(rows, script, changes) == Execute(next, script[1..], hits);
    assert Execute(next, script[1..], hits) == if hits == 1 then Execute(next, rest, hits) else None;
  }

  lemma {:induction false} ExecuteRendered(rows: Rows, plan: Plan, steps: seq<Action>, changes: nat)
    requires forall a | a in steps :: WellFormedAction(a, Ignored(plan, a))
    ensures Execute(rows, Render(plan, steps), changes) == CasFrom(Some(rows), plan, steps)
    decreases |steps|
  {
    if steps != [] {
      var a := steps[0];
      var ignored := Ignored(plan, a);
      ExecuteGuardedUpdate(rows, a, ignored, Render(plan, steps[1..]), changes);
      var next := CasUpdate(rows, a, ignored);
      if next.Some? {
        ExecuteRendered(next.value, plan, steps[1..], 1);
      }
    }
  }

  /** The rendered rollback script has, on any database, exactly the row effect of the engine's reversed
      updates, and its guards refuse exactly where they do. */
  lemma RollbackScriptAgrees(rows: Rows, plan: Plan)
    requires WellFormed(plan)
    ensures Execute(rows, RollbackScript(plan), 0) == CasAll(rows, plan, Orient(plan.actions, true))
  {
    var back := Orient(plan.actions, true);
    OrientKeeps(plan, true);
    ExecuteRendered(rows, plan, back, 0);
    CasAllFromFront(rows, plan, back);
  }

  /** After an apply the script leaves what the engine's own rollback leaves. */
  lemma RollbackScriptAfterApply(rows: Rows, plan: Plan, quick: bool, quickAfter: bool)
    requires WellFormed(plan) && SettlesTarget(plan) && Keyed(rows)
    requires Mutate(rows, plan, false, quick, quickAfter).0 == Done
    ensures var applied := Mutate(rows, plan, false, quick, quickAfter).1;
      Execute(applied, RollbackScript(plan), 0) == Some(Mutate(applied, plan, true, true, true).1)
  {
    var applied := Mutate(rows, plan, false, quick, quickAfter).1;
    ApplyThenRollbackRestores(rows, plan, quick, quickAfter);
    DoneMeans(applied, plan, true, true, true);
    RollbackScriptAgrees(applied, plan);
  }
}
