/** The concrete eight-action plan for management batch 150, and why the general
    engine results hold for it. */
module Batch150 {
  import opened Options
  import opened Terminalization
  import opened TerminalizationTheorems

  const COMPONENTS := "strategy_management_components"
  const MANAGEMENT_LEGS := "strategy_management_legs"
  const ORDER_LEGS := "execution_order_legs"
  const BINDINGS := "execution_bindings"
  const LIFECYCLES := "strategy_lifecycles"

  const REPAIR_REASON := Text("historical_position_fully_closed")
  const TERMINAL_LEG_REASON := Text("historical_exchange_position_closed")
  const STRATEGY := Text("deepcoin:-1003048800035:4384:BTC:short")
  const TARGET_POS := Text("1001124956792734")
  const SIBLING_POS := Text("1001124961572300")
  const PARENT_TRIGGER := Text("1001124956792983")

  const BATCH_EXPECTED: Row := map[
    "id" := Num(150),
    "status" := Text("recovery_required"),
    "reason_code" := Text("take_profit_cancel_retry_exhausted"),
    "idempotency_fingerprint" := Text("723b6ce5b01d2efef22dd35a11ace2f91cb35a12a9fd1cb4ec00e2953c01ac36"),
    "management_contract_fingerprint" := Text("ad8515aec6aac95b51b5edd0de6fe8aab9f6d89fa54ba23aeedb07af71a06006"),
    "target_fingerprint" := Text("353682c2d65ce005f9b214ac4cd4433d0b0da141d49fe3456866af861d8c2e73"),
    "recognition_generation" := Text("eb1b4c395455496fbdedd6c267d66443"),
    "contract_version" := Num(2),
    "target_lifecycle_id" := Num(952),
    "execution_binding_id" := Num(320),
    "raw_message_id" := Num(12780),
    "recognition_decision_id" := Num(12779),
    "strategy_instance_id" := STRATEGY,
    "reconciled_at" := Null,
    "completed_at" := Null]

  const MANAGEMENT_LEG_EXPECTED: Row := map[
    "management_batch_id" := Num(150), "execution_order_leg_id" := Num(553), "pos_id" := TARGET_POS,
    "leg_index" := Num(0), "status" := Text("planned"), "preflight_size" := Text("6"),
      "planned_close_size" := Text("3")]

  function PendingComponent(kind: string, sequence: int): Row {
    map["management_batch_id" := Num(150), "strategy_management_leg_id" := Num(133), "component_kind" := Text(kind),
        "sequence" := Num(sequence), "status" := Text("pending"), "reason_code" := Null, "attempt_count" := Num(0),
        "completed_at" := Null]
  }

  const STAGE_COMPONENT: Row := map[
    "management_batch_id" := Num(150), "strategy_management_leg_id" := Num(133),
    "component_kind" := Text("consume_take_profit_stage"), "sequence" := Num(0), "status" := Text("operator_required"),
    "reason_code" := Text("take_profit_cancel_retry_exhausted"), "attempt_count" := Num(3)]

  const BINDING_EXPECTED: Row := map[
    "strategy_instance_id" := STRATEGY, "symbol" := Text("BTC"), "side" := Text("short"), "status" := Text("active"),
    "pos_id" := TARGET_POS, "last_exchange_status" := Text("position_attribution_evidence_unavailable")]

  function OrderLegExpected(index: int, kind: string, order: Value, client: string, pos: Value, status: string): Row {
    map["execution_binding_id" := Num(320), "strategy_instance_id" := STRATEGY, "leg_index" := Num(index),
        "purpose" := Text("entry"), "order_kind" := Text(kind), "order_id" := order, "client_order_id" := Text(client),
        "pos_id" := pos, "attribution_status" := Text("verified"), "terminal_reason" := Null, "status" := Text(status)]
  }

  const LIFECYCLE_EXPECTED: Row := map[
    "execution_binding_id" := Num(320), "lifecycle_status" := Text("entered"), "exit_reason" := Null,
      "exited_at" := Null]

  /** `dict.get` on a missing column is None. */
  predicate HasValues(row: Row, expected: Row) {
    forall c | c in expected :: (if c in row then row[c] else Null) == expected[c]
  }

  /** The ids a table holds for one foreign key value. */
  function IdsWhere(rows: Rows, table: string, column: string, value: Value): set<int> {
    set k | k in rows && k.table == table && column in rows[k] && rows[k][column] == value :: k.pk
  }

  predicate RowHas(rows: Rows, key: Key, expected: Row) {
    key in rows && HasValues(rows[key], expected)
  }

  /** One action of the plan: the row it takes, the shape that row must have, and the terminal columns. */
  datatype Entry = Entry(key: Key, expected: Row, update: Row, statusColumn: string)

  function SkippedComponent(t: Value): Row {
    map["status" := Text("safely_skipped"), "reason_code" := REPAIR_REASON, "last_progress_at" := t,
        "completed_at" := t, "updated_at" := t]
  }

  function ClosedLeg(t: Value): Row {
    map["status" := Text("closed"), "terminal_reason" := TERMINAL_LEG_REASON, "last_verified_at" := t,
      "updated_at" := t]
  }

  function EntryAt(i: int, t: Value): Entry
    requires 0 <= i < 8
  {
    if i == 0 then
      Entry(Key(COMPONENTS, 23), PendingComponent("converge_partial_close", 1), SkippedComponent(t), "status")
    else if i == 1 then
      Entry(Key(COMPONENTS, 24), PendingComponent("replace_remaining_protection", 2), SkippedComponent(t), "status")
    else if i == 2 then
      Entry(Key(MANAGEMENT_LEGS, 133), MANAGEMENT_LEG_EXPECTED,
            map["status" := Text("failed"), "updated_at" := t], "status")
    else if i == 3 then
      Entry(Key(BATCHES, TARGET), BATCH_EXPECTED,
            map["status" := Text("resolved"), "reason_code" := REPAIR_REASON, "reconciled_at" := t,
                "completed_at" := t, "updated_at" := t], "status")
    else if i == 4 then
      Entry(Key(ORDER_LEGS, 553), OrderLegExpected(1, "market", TARGET_POS, "TKDBK4384E1", TARGET_POS, "filled"),
            ClosedLeg(t), "status")
    else if i == 5 then
      Entry(Key(ORDER_LEGS, 554),
        OrderLegExpected(2, "trigger_limit", PARENT_TRIGGER, "TKDBK4384E2", SIBLING_POS, "active"),
            ClosedLeg(t), "status")
    else if i == 6 then
      Entry(Key(BINDINGS, 320), BINDING_EXPECTED,
            map["status" := Text("closed"), "pos_id" := Null,
              "last_exchange_status" := Text("historical_cleanup_terminal"),
                "recovered_at" := t, "updated_at" := t], "status")
    else
      Entry(Key(LIFECYCLES, 952), LIFECYCLE_EXPECTED,
            map["lifecycle_status" := Text("exited"), "exit_reason" := Text("exchange_closed"), "exited_at" := t,
                "updated_at" := t], "lifecycle_status")
  }

  /** The shape the repair is written for; mutation intents and other read-only evidence are `evidenceOk`. */
  predicate ShapeHolds(rows: Rows, evidenceOk: bool) {
    && evidenceOk
    && (forall i | 0 <= i < 8 :: RowHas(rows, EntryAt(i, Null).key, EntryAt(i, Null).expected))
    && RowHas(rows, Key(COMPONENTS, 22), STAGE_COMPONENT)
    && IdsWhere(rows, MANAGEMENT_LEGS, "management_batch_id", Num(150)) == {133}
    && IdsWhere(rows, COMPONENTS, "management_batch_id", Num(150)) == {22, 23, 24}
    && IdsWhere(rows, ORDER_LEGS, "execution_binding_id", Num(320)) == {553, 554}
  }

  /** The after-image is the row as read, with the terminal columns overwritten. */
  function BuildActions(rows: Rows, t: Value, evidenceOk: bool): Option<seq<Action>> {
    if !ShapeHolds(rows, evidenceOk) then None
    else Some(seq(8, i requires 0 <= i < 8 && RowHas(rows, EntryAt(i, Null).key, EntryAt(i, Null).expected) =>
      Action(EntryAt(i, t).key, rows[EntryAt(i, Null).key], rows[EntryAt(i, Null).key] + EntryAt(i, t).update)))
  }

  const CAS_POLICY: map<Key, set<string>> := map[Key(ORDER_LEGS, 553) := {"updated_at"}]

  /** The integrity check every entry point repeats: same columns on both sides of every action. */
  predicate Integral(actions: seq<Action>) {
    forall i | 0 <= i < |actions| :: actions[i].before.Keys == actions[i].after.Keys
  }

  ghost predicate Built(planned: Rows, t: Value, plan: Plan) {
    && Keyed(planned)
    && plan.ignored == CAS_POLICY
    && BuildActions(planned, t, true) == Some(plan.actions)
    && Integral(plan.actions)
  }

  // ---------------------------------------------------------------- the built plan is well formed

  /** An entry overwrites its status column, and `updated_at` with the repair time. */
  ghost predicate ChangesStatus(e: Entry, t: Value) {
    && e.statusColumn in e.expected && e.statusColumn in e.update && "id" !in e.update && "updated_at" in e.update
    && e.expected[e.statusColumn] != Null && e.update[e.statusColumn] != e.expected[e.statusColumn]
    && e.statusColumn != "id" && e.statusColumn != "updated_at" && e.update["updated_at"] == t
  }

  lemma BatchEntryChangesStatus(t: Value)
    ensures ChangesStatus(EntryAt(3, t), t) && EntryAt(3, t).statusColumn == "status"
    ensures EntryAt(3, t).expected["status"] == Text("recovery_required") &&
      EntryAt(3, t).update["status"] == Text("resolved")
  {
  }

  lemma ComponentEntriesChangeStatus(i: int, t: Value)
    requires 0 <= i < 2
    ensures ChangesStatus(EntryAt(i, t), t)
  {
    var e := EntryAt(i, t);
    assert e.expected["status"] == Text("pending") && e.update["status"] == Text("safely_skipped") && |"pending"| == 7;
  }

  lemma LegEntriesChangeStatus(i: int, t: Value)
    requires i == 2 || i == 4 || i == 5
    ensures ChangesStatus(EntryAt(i, t), t)
  {
  }

  lemma LastEntriesChangeStatus(i: int, t: Value)
    requires 6 <= i < 8
    ensures ChangesStatus(EntryAt(i, t), t)
  {
  }

  lemma EntryChangesStatus(i: int, t: Value)
    requires 0 <= i < 8
    ensures ChangesStatus(EntryAt(i, t), t)
  {
    if i < 2 { ComponentEntriesChangeStatus(i, t); }
    else if i == 3 { BatchEntryChangesStatus(t); }
    else if i < 6 { LegEntriesChangeStatus(i, t); }
    else { LastEntriesChangeStatus(i, t); }
  }

  lemma EntryShapeIsFixed(i: int, t: Value)
    requires 0 <= i < 8
    ensures EntryAt(i, t).key == EntryAt(i, Null).key && EntryAt(i, t).expected == EntryAt(i, Null).expected
  {
  }

  lemma EntryKeysDistinct(i: int, j: int, t: Value)
    requires 0 <= i < j < 8
    ensures EntryAt(i, t).key != EntryAt(j, t).key
    ensures EntryAt(i, t).key.table == BATCHES <==> i == 3
    ensures EntryAt(j, t).key.table == BATCHES <==> j == 3
  {
    TableOrder(i, t);
    TableOrder(j, t);
  }

  lemma TableOrder(i: int, t: Value)
    requires 0 <= i < 8
    ensures EntryAt(i, t).key == KeyAt(i)
  {
  }

  /** What the engine needs of action `i`, with the entry behind it kept out of sight. */
  ghost predicate ActionFacts(planned: Rows, t: Value, plan: Plan, i: int) {
    && 0 <= i < |plan.actions|
    && var a := plan.actions[i];
      && WellFormedAction(a, Ignored(plan, a))
      && a.key in planned && a.before == planned[a.key]
      && (a.key.table == BATCHES <==> i == 3)
      && (i == 3 ==> BatchAction(plan, a))
      && Ignored(plan, a) == (if i == 4 then {"updated_at"} else {})
      && (i == 4 ==> && a.key == Key(ORDER_LEGS, 553) && "updated_at" in a.before && "updated_at" in a.after
                     && a.after["updated_at"] == t)
  }

  lemma EntryActionFacts(planned: Rows, e: Entry, t: Value, a: Action, ignored: set<string>)
    requires Keyed(planned) && RowHas(planned, e.key, e.expected) && ChangesStatus(e, t)
    requires a == Action(e.key, planned[e.key], planned[e.key] + e.update) && a.before.Keys == a.after.Keys
    requires "id" !in ignored
    ensures WellFormedAction(a, ignored)
    ensures e.statusColumn in a.before && a.before[e.statusColumn] == e.expected[e.statusColumn]
    ensures a.after[e.statusColumn] == e.update[e.statusColumn]
    ensures "updated_at" in a.before && a.after["updated_at"] == t
  {
    assert e.statusColumn in a.before && a.before[e.statusColumn] == e.expected[e.statusColumn];
    assert e.statusColumn in Changed(a);
    assert "updated_at" in a.after;
  }

  lemma BuiltAction(planned: Rows, t: Value, plan: Plan, i: int)
    requires Built(planned, t, plan) && 0 <= i < 8
    ensures var e := EntryAt(i, t);
      && |plan.actions| == 8 && RowHas(planned, e.key, e.expected)
      && plan.actions[i] == Action(e.key, planned[e.key], planned[e.key] + e.update)
      && plan.actions[i].before.Keys == plan.actions[i].after.Keys
  {
    EntryShapeIsFixed(i, t);
    assert RowHas(planned, EntryAt(i, Null).key, EntryAt(i, Null).expected);
  }

  function KeyAt(i: int): Key
    requires 0 <= i < 8
  {
    if i < 2 then Key(COMPONENTS, 23 + i) else if i == 2 then Key(MANAGEMENT_LEGS, 133)
    else if i == 3 then Key(BATCHES, TARGET) else if i < 6 then Key(ORDER_LEGS, 549 + i)
    else if i == 6 then Key(BINDINGS, 320) else Key(LIFECYCLES, 952)
  }

  lemma FactsOfEntry(planned: Rows, t: Value, plan: Plan, i: int, e: Entry)
    requires 0 <= i < |plan.actions| == 8 && Keyed(planned) && plan.ignored == CAS_POLICY
    requires RowHas(planned, e.key, e.expected) && ChangesStatus(e, t) && e.key == KeyAt(i)
    requires plan.actions[i] == Action(e.key, planned[e.key], planned[e.key] + e.update)
    requires plan.actions[i].before.Keys == plan.actions[i].after.Keys
    requires i == 3 ==> e.statusColumn == "status" && e.expected["status"] == Text("recovery_required")
                        && e.update["status"] == Text("resolved")
    ensures ActionFacts(planned, t, plan, i)
  {
    EntryActionFacts(planned, e, t, plan.actions[i], Ignored(plan, plan.actions[i]));
  }

  lemma BuiltActionFacts(planned: Rows, t: Value, plan: Plan, i: int)
    requires Built(planned, t, plan) && 0 <= i < 8
    ensures |plan.actions| == 8 && ActionFacts(planned, t, plan, i)
  {
    BuiltAction(planned, t, plan, i);
    var e := EntryAt(i, t);
    assert ChangesStatus(e, t) by { EntryChangesStatus(i, t); }
    assert e.key == KeyAt(i) by { TableOrder(i, t); }
    if i == 3 { BatchEntryChangesStatus(t); }
    FactsOfEntry(planned, t, plan, i, e);
  }

  /** A built plan is one the engine results speak about. */
  lemma BuiltPlanIsWellFormed(planned: Rows, t: Value, plan: Plan)
    requires Built(planned, t, plan)
    ensures |plan.actions| == 8 && WellFormed(plan) && SettlesTarget(plan)
  {
    forall i | 0 <= i < 8 ensures ActionFacts(planned, t, plan, i) { BuiltActionFacts(planned, t, plan, i); }
    BuiltKeysDiffer(planned, t, plan);
    FactsSuffice(planned, t, plan);
  }

  lemma BuiltKeysDiffer(planned: Rows, t: Value, plan: Plan)
    requires Built(planned, t, plan)
    ensures |plan.actions| == 8 && DistinctKeys(plan.actions)
  {
    BuiltAction(planned, t, plan, 0);
    forall i, j | 0 <= i < j < 8 ensures plan.actions[i].key != plan.actions[j].key {
      BuiltAction(planned, t, plan, i);
      BuiltAction(planned, t, plan, j);
      EntryKeysDistinct(i, j, t);
    }
  }

  lemma FactsSuffice(planned: Rows, t: Value, plan: Plan)
    requires |plan.actions| == 8 && DistinctKeys(plan.actions)
    requires forall i | 0 <= i < 8 :: ActionFacts(planned, t, plan, i)
    ensures WellFormed(plan) && SettlesTarget(plan)
  {
    assert ActionFacts(planned, t, plan, 3) && plan.actions[3] in plan.actions;
    forall a | a in plan.actions
      ensures WellFormedAction(a, Ignored(plan, a)) && (a.key.table == BATCHES ==> BatchAction(plan, a))
    {
      var i :| 0 <= i < 8 && plan.actions[i] == a;
      assert ActionFacts(planned, t, plan, i);
    }
  }

  /** For the built plan only leg 553's `updated_at` is uncompared: once the opening checks of an apply
      pass it completes if and only if the repair time differs from the time that leg was planned at, or
      the leg already carries the repair time.  Nothing but the postcondition can refuse it. */
  lemma BuiltApplyCompletesIff(planned: Rows, t: Value, plan: Plan, rows: Rows)
    requires Built(planned, t, plan) && Keyed(rows) && Opens(rows, plan, false)
    ensures var leg := Key(ORDER_LEGS, 553);
      && leg in rows && "updated_at" in rows[leg] && leg in planned && "updated_at" in planned[leg]
      && Mutate(rows, plan, false, true, true).0 ==
         if planned[leg]["updated_at"] != t || rows[leg]["updated_at"] == t then Done
         else Refused("postcondition_failed")
  {
    BuiltPlanIsWellFormed(planned, t, plan);
    forall i | 0 <= i < 8 ensures ActionFacts(planned, t, plan, i) { BuiltActionFacts(planned, t, plan, i); }
    OpeningChecksDecide(rows, plan, false);
    UncomparedColumn(planned, t, plan, rows);
  }

  lemma UncomparedColumn(planned: Rows, t: Value, plan: Plan, rows: Rows)
    requires |plan.actions| == 8 && Readable(rows, plan.actions)
    requires forall i | 0 <= i < 8 :: ActionFacts(planned, t, plan, i)
    ensures Orient(plan.actions, false) == plan.actions
    ensures var leg := Key(ORDER_LEGS, 553);
      && leg in rows && "updated_at" in rows[leg] && leg in planned && "updated_at" in planned[leg]
      && (IgnoredColumnsEndRight(rows, plan, plan.actions) <==>
          planned[leg]["updated_at"] != t || rows[leg]["updated_at"] == t)
  {
    assert ActionFacts(planned, t, plan, 4) && Read(rows, plan.actions[4]).Some?;
    if IgnoredColumnsEndRight(rows, plan, plan.actions) {
      assert "updated_at" in Ignored(plan, plan.actions[4]);
    }
    forall i | 0 <= i < 8 && i != 4
      ensures Ignored(plan, plan.actions[i]) == {}
    {
      assert ActionFacts(planned, t, plan, i);
    }
  }

  /** So an apply at a new repair time, then its rollback, restores all eight rows and leaves everything
      else alone but leg 553's `updated_at`. */
  lemma BuiltRoundTrip(planned: Rows, t: Value, plan: Plan, rows: Rows)
    requires Built(planned, t, plan) && Keyed(rows) && Opens(rows, plan, false)
    requires Key(ORDER_LEGS, 553) in planned && "updated_at" in planned[Key(ORDER_LEGS, 553)]
    requires planned[Key(ORDER_LEGS, 553)]["updated_at"] != t
    ensures var (first, applied) := Mutate(rows, plan, false, true, true);
      var (second, restored) := Mutate(applied, plan, true, true, true);
      && first == Done && second == Done
      && Mutate(applied, plan, false, true, true) == (Already, applied)
      && restored.Keys == rows.Keys
      && (forall a | a in plan.actions :: Read(restored, a) == Some(a.before))
      && (forall k, c | k in rows && c in rows[k] && (k != Key(ORDER_LEGS, 553) || c != "updated_at") ::
            c in restored[k] && restored[k][c] == rows[k][c])
  {
    BuiltApplyCompletesIff(planned, t, plan, rows);
    BuiltPlanIsWellFormed(planned, t, plan);
    ApplyThenRollbackRestores(rows, plan, true, true);
    SecondCallIsAlready(rows, plan, false, true, true, true);
    var applied := Mutate(rows, plan, false, true, true).1;
    forall i | 0 <= i < 8 ensures ActionFacts(planned, t, plan, i) { BuiltActionFacts(planned, t, plan, i); }
    OnlyLegColumnDiffers(planned, t, plan, rows, Mutate(applied, plan, true, true, true).1);
  }

  lemma OnlyLegColumnDiffers(planned: Rows, t: Value, plan: Plan, rows: Rows, restored: Rows)
    requires |plan.actions| == 8 && SameUnderPolicy(rows, restored, plan)
    requires forall i | 0 <= i < 8 :: ActionFacts(planned, t, plan, i)
    ensures forall k, c | k in rows && c in rows[k] && (k != Key(ORDER_LEGS, 553) || c != "updated_at") ::
              c in restored[k] && restored[k][c] == rows[k][c]
  {
    forall k, c | k in rows && c in rows[k] && (k != Key(ORDER_LEGS, 553) || c != "updated_at")
      ensures c in restored[k] && restored[k][c] == rows[k][c]
    {
      if a :| a in plan.actions && a.key == k {
        var i :| 0 <= i < 8 && plan.actions[i] == a;
        assert ActionFacts(planned, t, plan, i);
        var left, right := restored[k] - Ignored(plan, a), rows[k] - Ignored(plan, a);
        assert left == right && c in right;
        assert left[c] == right[c];
      }
    }
  }
}
