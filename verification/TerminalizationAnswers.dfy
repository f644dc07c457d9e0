/** What each answer of an apply or rollback call means, said of the stored rows alone:
    which state is taken for the work already done, and which state each refusal names. */
module TerminalizationAnswers {
  import opened Options
  import opened Terminalization

  /** A stored row shows an image: it has every column of the action, and the columns that are
      compared hold the image's values and no others are named. */
  ghost predicate ShowsImage(rows: Rows, a: Action, ignored: set<string>, image: Row) {
    && a.key in rows
    && (forall c | c in a.before :: c in rows[a.key])
    && (forall c | c !in ignored ::
       (c in a.before <==> c in image) && (c in a.before ==> rows[a.key][c] == image[c]))
  }

  ghost predicate AllAtTarget(rows: Rows, plan: Plan, steps: seq<Action>) {
    forall i | 0 <= i < |steps| :: ShowsImage(rows, steps[i], Ignored(plan, steps[i]), steps[i].after)
  }

  ghost predicate AllAtStart(rows: Rows, plan: Plan, steps: seq<Action>) {
    forall i | 0 <= i < |steps| :: ShowsImage(rows, steps[i], Ignored(plan, steps[i]), steps[i].before)
  }

  /** Nothing is left uncompared once the updates have run. */
  ghost predicate AllExact(rows: Rows, steps: seq<Action>) {
    forall i | 0 <= i < |steps| :: ShowsImage(rows, steps[i], {}, steps[i].after)
  }

  ghost predicate BatchIs(rows: Rows, id: int, status: string) {
    && Key("strategy_management_batches", id) in rows
    && "status" in rows[Key("strategy_management_batches", id)]
    && rows[Key("strategy_management_batches", id)]["status"] == Text(status)
  }

  /** Batch 150 and no other is waiting for recovery, or none is. */
  ghost predicate ToRecover(rows: Rows, waiting: bool) {
    forall id :: BatchIs(rows, id, "recovery_required") <==> waiting && id == 150
  }

  ghost predicate NoBatchMoves(rows: Rows) {
    forall id ::
      && !BatchIs(rows, id, "executing") && !BatchIs(rows, id, "reserved") && !BatchIs(rows, id, "submitted")
      && !BatchIs(rows, id, "submit_unknown") && !BatchIs(rows, id, "reconciling")
  }

  ghost predicate CountsHold(rows: Rows, plan: Plan) {
    forall t | t in plan.counts :: |set k | k in rows && k.table == t| == plan.counts[t]
  }

  // ---------------------------------------------------------------- the checks of the engine

  lemma ImageIff(rows: Rows, a: Action, ignored: set<string>, image: Row)
    ensures Read(rows, a).Some? && EqualUnder(ignored, Read(rows, a).value, image) <==>
            ShowsImage(rows, a, ignored, image)
  {
    if Read(rows, a).Some? {
      var left, right := Read(rows, a).value - ignored, image - ignored;
      if left == right {
        forall c | c !in ignored
          ensures (c in a.before <==> c in image) && (c in a.before ==> rows[a.key][c] == image[c])
        {
          assert c in left <==> c in right;
        }
      }
      if ShowsImage(rows, a, ignored, image) {
        assert left.Keys == right.Keys;
      }
    }
  }

  lemma RowsAreIff(rows: Rows, plan: Plan, steps: seq<Action>)
    ensures RowsAre(rows, plan, steps, true) <==> AllAtTarget(rows, plan, steps)
    ensures RowsAre(rows, plan, steps, false) <==> AllAtStart(rows, plan, steps)
  {
    forall i | 0 <= i < |steps|
      ensures Read(rows, steps[i]).Some? &&
              EqualUnder(Ignored(plan, steps[i]), Read(rows, steps[i]).value, steps[i].after) <==>
              ShowsImage(rows, steps[i], Ignored(plan, steps[i]), steps[i].after)
      ensures Read(rows, steps[i]).Some? &&
              EqualUnder(Ignored(plan, steps[i]), Read(rows, steps[i]).value, steps[i].before) <==>
              ShowsImage(rows, steps[i], Ignored(plan, steps[i]), steps[i].before)
    {
      ImageIff(rows, steps[i], Ignored(plan, steps[i]), steps[i].after);
      ImageIff(rows, steps[i], Ignored(plan, steps[i]), steps[i].before);
    }
  }

  lemma ExactlyIs(rows: Rows, steps: seq<Action>)
    ensures Exactly(rows, steps) <==> AllExact(rows, steps)
  {
    forall i | 0 <= i < |steps|
      ensures Read(rows, steps[i]) == Some(steps[i].after) <==> ShowsImage(rows, steps[i], {}, steps[i].after)
    {
      ImageIff(rows, steps[i], {}, steps[i].after);
      if Read(rows, steps[i]).Some? {
        var row := Read(rows, steps[i]).value;
        assert row - {} == row && steps[i].after - {} == steps[i].after;
      }
    }
  }

  lemma ToRecoverIff(rows: Rows, reverse: bool)
    ensures RecoveryIds(rows) == (if reverse then {} else {TARGET}) <==> ToRecover(rows, !reverse)
  {
    forall id ensures id in RecoveryIds(rows) <==> BatchIs(rows, id, "recovery_required") {
      if BatchIs(rows, id, "recovery_required") { assert Key(BATCHES, id).pk == id; }
    }
  }

  lemma NoneUnsafeIff(rows: Rows)
    ensures NoneUnsafe(rows) <==> NoBatchMoves(rows)
  {
    if NoneUnsafe(rows) {
      forall id, s | s in UNSAFE ensures !BatchIs(rows, id, s) {
        if Key(BATCHES, id) in rows { assert StatusOf(rows[Key(BATCHES, id)]) != Text(s); }
      }
      forall id
        ensures !BatchIs(rows, id, "executing") && !BatchIs(rows, id, "reserved") && !BatchIs(rows, id, "submitted")
        ensures !BatchIs(rows, id, "submit_unknown") && !BatchIs(rows, id, "reconciling")
      {
      }
    }
    if NoBatchMoves(rows) {
      forall k, s | k in rows && k.table == BATCHES && s in UNSAFE ensures StatusOf(rows[k]) != Text(s) {
        assert k == Key(BATCHES, k.pk);
        assert !BatchIs(rows, k.pk, s);
      }
    }
  }

  /** No update inserts or deletes, whatever the plan. */
  lemma {:induction false} CasAllKeepsKeys(rows: Rows, plan: Plan, steps: seq<Action>)
    ensures CasAll(rows, plan, steps).Some? ==> CasAll(rows, plan, steps).value.Keys == rows.Keys
    decreases |steps|
  {
    if steps != [] {
      CasAllKeepsKeys(rows, plan, steps[..|steps| - 1]);
    }
  }

  lemma CountsStay(rows: Rows, final: Rows, plan: Plan)
    requires rows.Keys == final.Keys
    ensures CountsAre(final, plan.counts) <==> CountsHold(rows, plan)
  {
    forall t ensures TableCount(final, t) == |set k | k in rows && k.table == t| {
      assert (set k | k in rows && k.table == t) == (set k | k in final && k.table == t);
    }
  }

  lemma ReasonsDiffer()
    ensures "quick_check_failed" != "table_counts_changed" && "quick_check_failed" != "database_state_mixed"
    ensures "quick_check_failed" != "target_set_changed" && "quick_check_failed" != "management_window_not_quiet"
    ensures "quick_check_failed" != "cas_rowcount_changed" && "quick_check_failed" != "postcondition_failed"
    ensures "table_counts_changed" != "database_state_mixed" && "table_counts_changed" != "target_set_changed"
    ensures "table_counts_changed" != "management_window_not_quiet"
    ensures "table_counts_changed" != "cas_rowcount_changed" && "table_counts_changed" != "postcondition_failed"
    ensures "database_state_mixed" != "target_set_changed" && "database_state_mixed" != "management_window_not_quiet"
    ensures "database_state_mixed" != "cas_rowcount_changed" && "database_state_mixed" != "postcondition_failed"
    ensures "target_set_changed" != "management_window_not_quiet"
    ensures "target_set_changed" != "cas_rowcount_changed" && "target_set_changed" != "postcondition_failed"
    ensures "management_window_not_quiet" != "cas_rowcount_changed"
    ensures "management_window_not_quiet" != "postcondition_failed"
    ensures "cas_rowcount_changed" != "postcondition_failed"
  {
    assert "quick_check_failed"[0] == 'q' && |"table_counts_changed"| == 20 && |"target_set_changed"| == 18;
    assert "table_counts_changed"[0] == 't' && "target_set_changed"[0] == 't' && "database_state_mixed"[0] == 'd';
    assert "management_window_not_quiet"[0] == 'm' && "cas_rowcount_changed"[0] == 'c';
    assert "postcondition_failed"[0] == 'p';
  }

  // ---------------------------------------------------------------- the answers

  /** A call that starts updating: nothing of the work is done, and the target set is the opening one. */
  ghost predicate Starts(rows: Rows, plan: Plan, reverse: bool) {
    var steps := Orient(plan.actions, reverse);
    && CountsHold(rows, plan) && AllAtStart(rows, plan, steps) && !AllAtTarget(rows, plan, steps)
    && ToRecover(rows, !reverse) && NoBatchMoves(rows)
  }

  lemma ChecksAre(rows: Rows, plan: Plan, steps: seq<Action>, reverse: bool)
    ensures CountsAre(rows, plan.counts) <==> CountsHold(rows, plan)
    ensures RowsAre(rows, plan, steps, true) <==> AllAtTarget(rows, plan, steps)
    ensures RowsAre(rows, plan, steps, false) <==> AllAtStart(rows, plan, steps)
    ensures QuietTargets(rows, reverse) <==> ToRecover(rows, !reverse) && NoBatchMoves(rows)
    ensures UnsettledReason(rows, reverse) ==
            Refused(if ToRecover(rows, !reverse) then "management_window_not_quiet" else "target_set_changed")
  {
    CountsStay(rows, rows, plan);
    RowsAreIff(rows, plan, steps);
    ToRecoverIff(rows, reverse);
    NoneUnsafeIff(rows);
  }

  /** The answer of a call that does not start updating. */
  lemma RefusedBeforeUpdating(rows: Rows, plan: Plan, reverse: bool, quick: bool, quickAfter: bool)
    requires !quick || !Starts(rows, plan, reverse)
    ensures var steps := Orient(plan.actions, reverse);
      var outcome := Mutate(rows, plan, reverse, quick, quickAfter).0;
      if !quick then outcome == Refused("quick_check_failed")
      else if !CountsHold(rows, plan) then outcome == Refused("table_counts_changed")
      else if AllAtTarget(rows, plan, steps) then
        outcome == if !ToRecover(rows, reverse) then Refused("target_set_changed")
                   else if !NoBatchMoves(rows) then Refused("management_window_not_quiet")
                   else Already
      else if !AllAtStart(rows, plan, steps) then outcome == Refused("database_state_mixed")
      else outcome == Refused(if ToRecover(rows, !reverse) then "management_window_not_quiet" else "target_set_changed")
  {
    var steps := Orient(plan.actions, reverse);
    ChecksAre(rows, plan, steps, reverse);
    ChecksAre(rows, plan, steps, !reverse);
  }

  /** The answer of a call that does. */
  lemma AnswerAfterUpdating(rows: Rows, plan: Plan, reverse: bool, quickAfter: bool)
    requires Starts(rows, plan, reverse)
    ensures var steps := Orient(plan.actions, reverse);
      var outcome := Mutate(rows, plan, reverse, true, quickAfter).0;
      match CasAll(rows, plan, steps)
      case None => outcome == Refused("cas_rowcount_changed")
      case Some(final) =>
        if !AllExact(final, steps) then outcome == Refused("postcondition_failed")
        else if !ToRecover(final, reverse) then outcome == Refused("target_set_changed")
        else if !NoBatchMoves(final) then outcome == Refused("management_window_not_quiet")
        else if !quickAfter then outcome == Refused("quick_check_failed")
        else outcome == Done
  {
    var steps := Orient(plan.actions, reverse);
    ChecksAre(rows, plan, steps, reverse);
    if CasAll(rows, plan, steps).Some? {
      var final := CasAll(rows, plan, steps).value;
      CasAllKeepsKeys(rows, plan, steps);
      CountsStay(rows, final, plan);
      ExactlyIs(final, steps);
      ChecksAre(final, plan, steps, !reverse);
    }
  }

  /** What the updates of a call leave, if every one of them changed its row. */
  function Updated(rows: Rows, plan: Plan, reverse: bool): Option<Rows> {
    CasAll(rows, plan, Orient(plan.actions, reverse))
  }

  /** The call is taken for already done exactly when the integrity check and the counts hold, every row
      shows its target under the policy, and the target set is the closing one. */
  lemma AlreadyIff(rows: Rows, plan: Plan, reverse: bool, quick: bool, quickAfter: bool)
    ensures Mutate(rows, plan, reverse, quick, quickAfter).0 == Already <==>
            && quick && CountsHold(rows, plan) && AllAtTarget(rows, plan, Orient(plan.actions, reverse))
            && ToRecover(rows, reverse) && NoBatchMoves(rows)
  {
    if quick && Starts(rows, plan, reverse) {
      AnswerAfterUpdating(rows, plan, reverse, quickAfter);
    } else {
      RefusedBeforeUpdating(rows, plan, reverse, quick, quickAfter);
    }
  }

  /** The call completes exactly when it starts, every update changes its one row, every row then equals
      its target in every column, the target set has moved, and both integrity checks hold. */
  lemma DoneIff(rows: Rows, plan: Plan, reverse: bool, quick: bool, quickAfter: bool)
    ensures Mutate(rows, plan, reverse, quick, quickAfter).0 == Done <==>
            && quick && quickAfter && Starts(rows, plan, reverse)
            && Updated(rows, plan, reverse).Some?
            && AllExact(Updated(rows, plan, reverse).value, Orient(plan.actions, reverse))
            && ToRecover(Updated(rows, plan, reverse).value, reverse)
            && NoBatchMoves(Updated(rows, plan, reverse).value)
  {
    if quick && Starts(rows, plan, reverse) {
      AnswerAfterUpdating(rows, plan, reverse, quickAfter);
    } else {
      RefusedBeforeUpdating(rows, plan, reverse, quick, quickAfter);
    }
  }

  /** The refusals of the rows, each exactly under its own condition.  The counts can only refuse before
      the updates, and a mixed state is one at neither image. */
  lemma RefusalsIff(rows: Rows, plan: Plan, reverse: bool, quick: bool, quickAfter: bool)
    ensures var steps := Orient(plan.actions, reverse);
      var outcome := Mutate(rows, plan, reverse, quick, quickAfter).0;
      && (outcome == Refused("table_counts_changed") <==> quick && !CountsHold(rows, plan))
      && (outcome == Refused("database_state_mixed") <==>
            && quick && CountsHold(rows, plan)
            && !AllAtTarget(rows, plan, steps) && !AllAtStart(rows, plan, steps))
      && (outcome == Refused("cas_rowcount_changed") <==>
            quick && Starts(rows, plan, reverse) && Updated(rows, plan, reverse) == None)
      && (outcome == Refused("postcondition_failed") <==>
            && quick && Starts(rows, plan, reverse) && Updated(rows, plan, reverse).Some?
            && !AllExact(Updated(rows, plan, reverse).value, steps))
      && (outcome == Refused("quick_check_failed") <==>
            || !quick
            || (&& !quickAfter && Starts(rows, plan, reverse) && Updated(rows, plan, reverse).Some?
                && AllExact(Updated(rows, plan, reverse).value, steps)
                && ToRecover(Updated(rows, plan, reverse).value, reverse)
                && NoBatchMoves(Updated(rows, plan, reverse).value)))
  {
    ReasonsDiffer();
    if quick && Starts(rows, plan, reverse) {
      AnswerAfterUpdating(rows, plan, reverse, quickAfter);
    } else {
      RefusedBeforeUpdating(rows, plan, reverse, quick, quickAfter);
    }
  }

  /** The refusals of the target set: asked of the closing set when the work is done already or has just
      been done, of the opening set when it is to start. */
  lemma TargetRefusalsIff(rows: Rows, plan: Plan, reverse: bool, quick: bool, quickAfter: bool)
    ensures var steps := Orient(plan.actions, reverse);
      var outcome := Mutate(rows, plan, reverse, quick, quickAfter).0;
      var atTarget := quick && CountsHold(rows, plan) && AllAtTarget(rows, plan, steps);
      var toStart := quick && CountsHold(rows, plan) && AllAtStart(rows, plan, steps) &&
                     !AllAtTarget(rows, plan, steps);
      var ended := quick && Starts(rows, plan, reverse) && Updated(rows, plan, reverse).Some? &&
                   AllExact(Updated(rows, plan, reverse).value, steps);
      && (outcome == Refused("target_set_changed") <==>
            || (atTarget && !ToRecover(rows, reverse))
            || (toStart && !ToRecover(rows, !reverse))
            || (ended && !ToRecover(Updated(rows, plan, reverse).value, reverse)))
      && (outcome == Refused("management_window_not_quiet") <==>
            || (atTarget && ToRecover(rows, reverse) && !NoBatchMoves(rows))
            || (toStart && ToRecover(rows, !reverse) && !NoBatchMoves(rows))
            || (ended && ToRecover(Updated(rows, plan, reverse).value, reverse) &&
                !NoBatchMoves(Updated(rows, plan, reverse).value)))
  {
    ReasonsDiffer();
    if quick && Starts(rows, plan, reverse) {
      AnswerAfterUpdating(rows, plan, reverse, quickAfter);
    } else {
      RefusedBeforeUpdating(rows, plan, reverse, quick, quickAfter);
    }
  }
}
