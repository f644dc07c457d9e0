/** A database in the shape the batch 150 repair is written for, and an apply to it that passes every
    opening check and is refused all the same. */
module Batch150Input {
  import opened Options
  import opened Terminalization
  import opened TerminalizationTheorems
  import opened Batch150

  const LEG := Key(ORDER_LEGS, 553)

  // ---------------------------------------------------------------- any plan built at its own repair time

  function Moved(rows: Rows, other: Value): Rows
    requires LEG in rows
  {
    rows[LEG := rows[LEG]["updated_at" := other]]
  }

  lemma MovedReads(rows: Rows, other: Value, plan: Plan, a: Action)
    requires LEG in rows && "updated_at" in rows[LEG] && Read(rows, a).Some?
    requires a.key == LEG ==> "updated_at" in Ignored(plan, a)
    ensures Read(Moved(rows, other), a).Some?
    ensures Read(Moved(rows, other), a).value - Ignored(plan, a) == Read(rows, a).value - Ignored(plan, a)
  {
    assert Moved(rows, other)[LEG].Keys == rows[LEG].Keys;
  }

  lemma MovedCounts(rows: Rows, other: Value, counts: map<string, nat>)
    requires LEG in rows && CountsAre(rows, counts)
    ensures CountsAre(Moved(rows, other), counts)
  {
    forall t | t in counts ensures TableCount(Moved(rows, other), t) == TableCount(rows, t) {
      assert (set k | k in Moved(rows, other) && k.table == t) == (set k | k in rows && k.table == t);
    }
  }

  lemma TablesDiffer()
    ensures ORDER_LEGS != BATCHES && ORDER_LEGS != COMPONENTS && ORDER_LEGS != MANAGEMENT_LEGS && ORDER_LEGS != BINDINGS
    ensures ORDER_LEGS != LIFECYCLES && BATCHES != COMPONENTS && BATCHES != MANAGEMENT_LEGS && BATCHES != BINDINGS &&
      BATCHES != LIFECYCLES
    ensures COMPONENTS != MANAGEMENT_LEGS && COMPONENTS != BINDINGS && COMPONENTS != LIFECYCLES &&
      MANAGEMENT_LEGS != BINDINGS
    ensures MANAGEMENT_LEGS != LIFECYCLES && BINDINGS != LIFECYCLES
  {
    assert |ORDER_LEGS| == 20 && |BATCHES| == 27 && |COMPONENTS| == 30 && |MANAGEMENT_LEGS| == 24 && |BINDINGS| == 18 &&
      |LIFECYCLES| == 19;
  }

  lemma MovedIsQuiet(rows: Rows, other: Value)
    requires LEG in rows && QuietTargets(rows, false)
    ensures QuietTargets(Moved(rows, other), false)
  {
    TablesDiffer();
    assert RecoveryIds(Moved(rows, other)) == RecoveryIds(rows);
  }

  lemma MovedOpens(planned: Rows, t: Value, plan: Plan, other: Value)
    requires |plan.actions| == 8 && Opens(planned, plan, false)
    requires forall i | 0 <= i < 8 :: ActionFacts(planned, t, plan, i)
    ensures LEG in planned && Opens(Moved(planned, other), plan, false)
  {
    assert ActionFacts(planned, t, plan, 4);
    var moved := Moved(planned, other);
    MovedCounts(planned, other, plan.counts);
    MovedIsQuiet(planned, other);
    forall i | 0 <= i < 8
      ensures Read(moved, plan.actions[i]).Some?
      ensures var a := plan.actions[i];
        Read(moved, a).value - Ignored(plan, a) == Read(planned, a).value - Ignored(plan, a)
    {
      assert ActionFacts(planned, t, plan, i);
      if plan.actions[i].key == LEG { LegIsFourth(planned, t, plan, i); }
      MovedReads(planned, other, plan, plan.actions[i]);
    }
  }

  lemma LegIsFourth(planned: Rows, t: Value, plan: Plan, i: int)
    requires |plan.actions| == 8 && 0 <= i < 8 && plan.actions[i].key == LEG
    requires ActionFacts(planned, t, plan, i) && ActionFacts(planned, t, plan, 4)
    ensures "updated_at" in Ignored(plan, plan.actions[i])
  {
  }

  lemma MovedKeyed(rows: Rows, other: Value)
    requires LEG in rows && Keyed(rows)
    ensures Keyed(Moved(rows, other)) && LEG in Moved(rows, other) && "updated_at" in Moved(rows, other)[LEG]
    ensures Moved(rows, other)[LEG]["updated_at"] == other
  {
  }

  lemma MovedStillOpens(planned: Rows, t: Value, plan: Plan, other: Value)
    requires Built(planned, t, plan) && Opens(planned, plan, false)
    ensures LEG in planned && Keyed(Moved(planned, other)) && Opens(Moved(planned, other), plan, false)
  {
    BuiltPlanIsWellFormed(planned, t, plan);
    forall i | 0 <= i < 8 ensures ActionFacts(planned, t, plan, i) { BuiltActionFacts(planned, t, plan, i); }
    MovedOpens(planned, t, plan, other);
    MovedKeyed(planned, other);
  }

  /** A plan built at the very time leg 553 was last updated: when that column moves before the apply, every
      opening check still passes, every update hits its row, and the apply is refused with nothing changed. */
  lemma MovedLegIsRefused(planned: Rows, t: Value, plan: Plan, other: Value)
    requires Built(planned, t, plan) && Opens(planned, plan, false) && other != t
    requires LEG in planned && "updated_at" in planned[LEG] && planned[LEG]["updated_at"] == t
    ensures Opens(Moved(planned, other), plan, false)
    ensures Mutate(Moved(planned, other), plan, false, true, true).0 == Refused("postcondition_failed")
    ensures Mutate(Moved(planned, other), plan, false, true, true).1 == Moved(planned, other)
  {
    var moved := Moved(planned, other);
    MovedStillOpens(planned, t, plan, other);
    assert moved[LEG]["updated_at"] == other by { MovedKeyed(planned, other); }
    assert Mutate(moved, plan, false, true, true).0 == Refused("postcondition_failed") by {
      BuiltApplyCompletesIff(planned, t, plan, moved);
    }
    RefusedChangesNothing(moved, plan);
  }

  lemma RefusedChangesNothing(rows: Rows, plan: Plan)
    ensures Mutate(rows, plan, false, true, true).0 != Done ==> Mutate(rows, plan, false, true, true).1 == rows
  {
  }

  // ---------------------------------------------------------------- a concrete database

  /** A row with the terminal columns present and the expected values in place. */
  function RowOf(e: Entry): Row { e.update + e.expected + map["id" := Num(e.key.pk)] }

  const STAGE_KEY := Key(COMPONENTS, 22)

  function IndexAt(k: Key): int {
    if k == KeyAt(0) then 0 else if k == KeyAt(1) then 1 else if k == KeyAt(2) then 2 else if k == KeyAt(3) then 3
    else if k == KeyAt(4) then 4 else if k == KeyAt(5) then 5 else if k == KeyAt(6) then 6 else 7
  }

  function SampleRowAt(k: Key, t: Value): Row {
    if k == STAGE_KEY then STAGE_COMPONENT + map["id" := Num(22)] else RowOf(EntryAt(IndexAt(k), t))
  }

  /** The rows the repair reads, last updated at `t`. */
  function Sample(t: Value): Rows {
    map k | k in {STAGE_KEY, KeyAt(0), KeyAt(1), KeyAt(2), KeyAt(3), KeyAt(4), KeyAt(5), KeyAt(6), KeyAt(7)} ::
      SampleRowAt(k, t)
  }

  lemma KeyTables(i: int)
    requires 0 <= i < 8
    ensures KeyAt(i).table == COMPONENTS <==> i < 2
    ensures KeyAt(i).table == MANAGEMENT_LEGS <==> i == 2
    ensures KeyAt(i).table == BATCHES <==> i == 3
    ensures KeyAt(i).table == ORDER_LEGS <==> i == 4 || i == 5
    ensures KeyAt(i) != STAGE_KEY && IndexAt(KeyAt(i)) == i
  {
    TablesDiffer();
  }

  predicate IsEntryKey(k: Key) { exists i :: 0 <= i < 8 && KeyAt(i) == k }

  /** Only the nine keys of the sample. */
  ghost predicate KeysKnown(rows: Rows) { forall k | k in rows :: k == STAGE_KEY || IsEntryKey(k) }

  ghost predicate IsSample(rows: Rows, t: Value) {
    && KeysKnown(rows)
    && (forall i | 0 <= i < 8 :: KeyAt(i) in rows && rows[KeyAt(i)] == RowOf(EntryAt(i, t)))
    && STAGE_KEY in rows && rows[STAGE_KEY] == STAGE_COMPONENT + map["id" := Num(22)]
  }

  lemma SampleKeys(t: Value)
    ensures KeysKnown(Sample(t)) && STAGE_KEY in Sample(t)
  {
    forall k | k in Sample(t) && k != STAGE_KEY ensures IsEntryKey(k) { assert KeyAt(IndexAt(k)) == k; }
  }

  lemma SampleAt(t: Value, i: int)
    requires 0 <= i < 8
    ensures KeyAt(i) in Sample(t) && Sample(t)[KeyAt(i)] == RowOf(EntryAt(i, t))
  {
    SampleHas(t, i);
    assert SampleRowAt(KeyAt(i), t) == RowOf(EntryAt(i, t)) by { KeyTables(i); }
  }

  lemma SampleHas(t: Value, i: int)
    requires 0 <= i < 8
    ensures KeyAt(i) in Sample(t)
  {
    assert i == 0 || i == 1 || i == 2 || i == 3 || i == 4 || i == 5 || i == 6 || i == 7;
  }

  lemma SampleIs(t: Value)
    ensures IsSample(Sample(t), t)
  {
    SampleKeys(t);
    forall i | 0 <= i < 8
      ensures KeyAt(i) in Sample(t) && Sample(t)[KeyAt(i)] == RowOf(EntryAt(i, t))
    {
      SampleAt(t, i);
    }
  }

  lemma RowHasExpected(e: Entry)
    requires "id" in e.expected ==> e.expected["id"] == Num(e.key.pk)
    ensures HasValues(RowOf(e), e.expected) && "id" in RowOf(e) && RowOf(e)["id"] == Num(e.key.pk)
    ensures e.update.Keys <= RowOf(e).Keys
    ensures forall c | c in e.update && c !in e.expected && c != "id" :: RowOf(e)[c] == e.update[c]
  {
  }

  lemma EntryIdAgrees(i: int, t: Value)
    requires 0 <= i < 8
    ensures "id" in EntryAt(i, t).expected ==> EntryAt(i, t).expected["id"] == Num(KeyAt(i).pk)
    ensures EntryAt(i, t).key == KeyAt(i)
  {
    TableOrder(i, t);
    if i == 3 { BatchEntryId(t); } else { OtherEntryId(i, t); }
  }

  lemma BatchEntryId(t: Value)
    ensures "id" in EntryAt(3, t).expected && EntryAt(3, t).expected["id"] == Num(KeyAt(3).pk)
  {
  }

  lemma OtherEntryId(i: int, t: Value)
    requires 0 <= i < 8 && i != 3
    ensures "id" !in EntryAt(i, t).expected
  {
    assert |"id"| == 2;
  }

  /** What the sample's row of an entry holds. */
  lemma SampleRow(rows: Rows, t: Value, i: int)
    requires IsSample(rows, t) && 0 <= i < 8
    ensures var e := EntryAt(i, t);
      && KeyAt(i) in rows && HasValues(rows[KeyAt(i)], e.expected) && e.update.Keys <= rows[KeyAt(i)].Keys
      && "id" in rows[KeyAt(i)] && rows[KeyAt(i)]["id"] == Num(KeyAt(i).pk)
  {
    EntryIdAgrees(i, t);
    RowHasExpected(EntryAt(i, t));
  }

  lemma SampleIsKeyed(rows: Rows, t: Value)
    requires IsSample(rows, t)
    ensures Keyed(rows)
  {
    forall k | k in rows ensures "id" in rows[k] && rows[k]["id"] == Num(k.pk) {
      if k != STAGE_KEY {
        assert IsEntryKey(k);
        var i :| 0 <= i < 8 && KeyAt(i) == k;
        SampleRow(rows, t, i);
      }
    }
  }

  lemma SampleRowHas(rows: Rows, t: Value, i: int)
    requires IsSample(rows, t) && 0 <= i < 8
    ensures RowHas(rows, EntryAt(i, Null).key, EntryAt(i, Null).expected)
  {
    SampleRow(rows, t, i);
    EntryShapeIsFixed(i, t);
    EntryIdAgrees(i, t);
  }

  lemma StageRow()
    ensures HasValues(STAGE_COMPONENT + map["id" := Num(22)], STAGE_COMPONENT)
    ensures "management_batch_id" in STAGE_COMPONENT && STAGE_COMPONENT["management_batch_id"] == Num(150)
  {
    assert "id" !in STAGE_COMPONENT by { assert |"id"| == 2; }
  }

  predicate Links(rows: Rows, k: Key, column: string, value: Value) {
    k in rows && column in rows[k] && rows[k][column] == value
  }

  lemma SampleStage(rows: Rows, t: Value)
    requires IsSample(rows, t)
    ensures RowHas(rows, STAGE_KEY, STAGE_COMPONENT) && Links(rows, STAGE_KEY, "management_batch_id", Num(150))
  {
    StageRow();
    assert "management_batch_id" != "id" by { assert |"id"| == 2; }
  }

  /** A value an entry expects is the value its row has. */
  lemma SampleValue(rows: Rows, t: Value, i: int, c: string)
    requires IsSample(rows, t) && 0 <= i < 8 && c in EntryAt(i, t).expected && EntryAt(i, t).expected[c] != Null
    ensures KeyAt(i) in rows && c in rows[KeyAt(i)] && rows[KeyAt(i)][c] == EntryAt(i, t).expected[c]
  {
    SampleRow(rows, t, i);
  }

  lemma SampleLinks(rows: Rows, t: Value, i: int)
    requires IsSample(rows, t) && 0 <= i < 8
    ensures i < 3 ==> Links(rows, KeyAt(i), "management_batch_id", Num(150))
    ensures i == 4 || i == 5 ==> Links(rows, KeyAt(i), "execution_binding_id", Num(320))
    ensures i == 3 ==> Links(rows, KeyAt(i), "status", Text("recovery_required"))
  {
    if i < 2 {
      ComponentLinks(i, t);
      SampleValue(rows, t, i, "management_batch_id");
    } else if i == 2 {
      ManagementLegLinks(t);
      SampleValue(rows, t, i, "management_batch_id");
    } else if i == 3 {
      BatchEntryChangesStatus(t);
      SampleValue(rows, t, i, "status");
    } else if i < 6 {
      OrderLegLinks(i, t);
      SampleValue(rows, t, i, "execution_binding_id");
    }
  }

  lemma ComponentLinks(i: int, t: Value)
    requires 0 <= i < 2
    ensures "management_batch_id" in EntryAt(i, t).expected && EntryAt(i, t).expected["management_batch_id"] == Num(150)
  {
  }

  lemma ManagementLegLinks(t: Value)
    ensures "management_batch_id" in EntryAt(2, t).expected && EntryAt(2, t).expected["management_batch_id"] == Num(150)
  {
  }

  lemma OrderLegLinks(i: int, t: Value)
    requires i == 4 || i == 5
    ensures "execution_binding_id" in EntryAt(i, t).expected &&
      EntryAt(i, t).expected["execution_binding_id"] == Num(320)
  {
  }

  /** The keys of one table. */
  lemma InTable(rows: Rows, k: Key)
    requires KeysKnown(rows) && k in rows
    ensures k.table == COMPONENTS ==> k in {KeyAt(0), KeyAt(1), STAGE_KEY}
    ensures k.table == MANAGEMENT_LEGS ==> k == KeyAt(2)
    ensures k.table == BATCHES ==> k == KeyAt(3)
    ensures k.table == ORDER_LEGS ==> k in {KeyAt(4), KeyAt(5)}
  {
    if k == STAGE_KEY {
      TablesDiffer();
    } else {
      assert IsEntryKey(k);
      var i :| 0 <= i < 8 && KeyAt(i) == k;
      KeyTables(i);
    }
  }

  lemma IdsAre(rows: Rows, table: string, column: string, value: Value, keys: set<Key>)
    requires forall k | k in keys :: Links(rows, k, column, value) && k.table == table
    requires forall k | k in rows && k.table == table :: k in keys
    ensures IdsWhere(rows, table, column, value) == set k | k in keys :: k.pk
  {
    forall k | k in keys
      ensures k in rows && column in rows[k] && rows[k][column] == value
    {
      assert Links(rows, k, column, value);
    }
  }

  lemma ManagementLegIds(rows: Rows)
    requires KeysKnown(rows) && Links(rows, KeyAt(2), "management_batch_id", Num(150))
    ensures IdsWhere(rows, MANAGEMENT_LEGS, "management_batch_id", Num(150)) == {133}
  {
    forall k | k in rows && k.table == MANAGEMENT_LEGS ensures k in {KeyAt(2)} { InTable(rows, k); }
    IdsAre(rows, MANAGEMENT_LEGS, "management_batch_id", Num(150), {KeyAt(2)});
    assert (set k | k in {KeyAt(2)} :: k.pk) == {133};
  }

  lemma ComponentIds(rows: Rows)
    requires KeysKnown(rows) && Links(rows, KeyAt(0), "management_batch_id", Num(150))
    requires Links(rows, KeyAt(1), "management_batch_id", Num(150)) &&
      Links(rows, STAGE_KEY, "management_batch_id", Num(150))
    ensures IdsWhere(rows, COMPONENTS, "management_batch_id", Num(150)) == {22, 23, 24}
  {
    var keys := {KeyAt(0), KeyAt(1), STAGE_KEY};
    forall k | k in rows && k.table == COMPONENTS ensures k in keys { InTable(rows, k); }
    IdsAre(rows, COMPONENTS, "management_batch_id", Num(150), keys);
    assert KeyAt(0) in keys && KeyAt(1) in keys && STAGE_KEY in keys;
    assert (set k | k in keys :: k.pk) == {22, 23, 24};
  }

  lemma OrderLegIds(rows: Rows)
    requires KeysKnown(rows) && Links(rows, KeyAt(4), "execution_binding_id", Num(320))
    requires Links(rows, KeyAt(5), "execution_binding_id", Num(320))
    ensures IdsWhere(rows, ORDER_LEGS, "execution_binding_id", Num(320)) == {553, 554}
  {
    var keys := {KeyAt(4), KeyAt(5)};
    forall k | k in rows && k.table == ORDER_LEGS ensures k in keys { InTable(rows, k); }
    IdsAre(rows, ORDER_LEGS, "execution_binding_id", Num(320), keys);
    assert KeyAt(4) in keys && KeyAt(5) in keys;
    assert (set k | k in keys :: k.pk) == {553, 554};
  }

  lemma SampleShape(rows: Rows, t: Value)
    requires IsSample(rows, t)
    ensures ShapeHolds(rows, true)
  {
    forall i | 0 <= i < 8
      ensures RowHas(rows, EntryAt(i, Null).key, EntryAt(i, Null).expected)
    {
      SampleRowHas(rows, t, i);
    }
    SampleIds(rows, t);
    SampleStage(rows, t);
  }

  lemma SampleIds(rows: Rows, t: Value)
    requires IsSample(rows, t)
    ensures IdsWhere(rows, MANAGEMENT_LEGS, "management_batch_id", Num(150)) == {133}
    ensures IdsWhere(rows, COMPONENTS, "management_batch_id", Num(150)) == {22, 23, 24}
    ensures IdsWhere(rows, ORDER_LEGS, "execution_binding_id", Num(320)) == {553, 554}
  {
    SampleStage(rows, t);
    forall i | 0 <= i < 8
      ensures i < 3 ==> Links(rows, KeyAt(i), "management_batch_id", Num(150))
      ensures i == 4 || i == 5 ==> Links(rows, KeyAt(i), "execution_binding_id", Num(320))
    {
      SampleLinks(rows, t, i);
    }
    ManagementLegIds(rows);
    ComponentIds(rows);
    OrderLegIds(rows);
  }

  // ---------------------------------------------------------------- the plan built from it

  ghost predicate IsSamplePlan(rows: Rows, t: Value, plan: Plan) {
    IsSample(rows, t) && plan.counts == map[] && plan.ignored == CAS_POLICY &&
      BuildActions(rows, t, true) == Some(plan.actions)
  }

  lemma SampleAction(rows: Rows, t: Value, plan: Plan, i: int)
    requires IsSamplePlan(rows, t, plan) && 0 <= i < 8
    ensures |plan.actions| == 8 && KeyAt(i) in rows
    ensures plan.actions[i] == Action(KeyAt(i), rows[KeyAt(i)], rows[KeyAt(i)] + EntryAt(i, t).update)
    ensures plan.actions[i].before.Keys == plan.actions[i].after.Keys
  {
    SampleShape(rows, t);
    SampleRow(rows, t, i);
    EntryIdAgrees(i, t);
    ActionAt(rows, t, plan.actions, i);
  }

  lemma ActionAt(rows: Rows, t: Value, actions: seq<Action>, i: int)
    requires ShapeHolds(rows, true) && BuildActions(rows, t, true) == Some(actions) && 0 <= i < 8
    ensures |actions| == 8 && EntryAt(i, t).key in rows
    ensures var e := EntryAt(i, t); actions[i] == Action(e.key, rows[e.key], rows[e.key] + e.update)
  {
    EntryShapeIsFixed(i, t);
  }

  lemma SampleIsBuilt(rows: Rows, t: Value, plan: Plan)
    requires IsSamplePlan(rows, t, plan)
    ensures Built(rows, t, plan) && |plan.actions| == 8
  {
    SampleIsKeyed(rows, t);
    SampleAction(rows, t, plan, 0);
    forall i | 0 <= i < |plan.actions| ensures plan.actions[i].before.Keys == plan.actions[i].after.Keys {
      SampleAction(rows, t, plan, i);
    }
  }

  lemma SampleIsQuiet(rows: Rows)
    requires KeysKnown(rows) && Links(rows, KeyAt(3), "status", Text("recovery_required"))
    ensures QuietTargets(rows, false)
  {
    KeyTables(3);
    forall k | k in rows && k.table == BATCHES ensures k == KeyAt(3) { InTable(rows, k); }
    assert RecoveryIds(rows) == {TARGET};
    forall x | x in UNSAFE ensures x != "recovery_required" { assert |x| < 17 == |"recovery_required"|; }
  }

  lemma WholeRowRead(rows: Rows, a: Action)
    requires a.key in rows && a.before == rows[a.key]
    ensures Read(rows, a) == Some(a.before)
  {
    assert Columns(rows[a.key], a.before.Keys) == rows[a.key];
  }

  lemma OpensAsRead(rows: Rows, t: Value, plan: Plan)
    requires |plan.actions| == 8 && plan.counts == map[] && QuietTargets(rows, false)
    requires forall i | 0 <= i < 8 :: Read(rows, plan.actions[i]) == Some(plan.actions[i].before)
    requires BatchAction(plan, plan.actions[3])
    ensures Opens(rows, plan, false)
  {
    var a := plan.actions[3];
    assert "status" in a.before - Ignored(plan, a) &&
      (a.before - Ignored(plan, a))["status"] != (a.after - Ignored(plan, a))["status"];
  }

  lemma SampleOpens(rows: Rows, t: Value, plan: Plan)
    requires IsSamplePlan(rows, t, plan)
    ensures Built(rows, t, plan) && Opens(rows, plan, false)
  {
    SampleIsBuilt(rows, t, plan);
    SampleLinks(rows, t, 3);
    SampleIsQuiet(rows);
    forall i | 0 <= i < 8 ensures Read(rows, plan.actions[i]) == Some(plan.actions[i].before) {
      SampleAction(rows, t, plan, i);
      WholeRowRead(rows, plan.actions[i]);
    }
    BuiltActionFacts(rows, t, plan, 3);
    OpensAsRead(rows, t, plan);
  }

  ghost predicate RefusedAtTheEnd(rows: Rows, plan: Plan) {
    Opens(rows, plan, false) && Mutate(rows, plan, false, true, true) == (Refused("postcondition_failed"), rows)
  }

  /** The repair built and the leg last updated in the same instant, and the leg touched once more before the
      apply: an opened apply that is refused. */
  lemma SampleApplyIsRefused(t: Value, other: Value)
    requires other != t
    ensures LEG in Sample(t) && exists plan: Plan ::
      Built(Sample(t), t, plan) && RefusedAtTheEnd(Moved(Sample(t), other), plan)
  {
    var plan := SampleBuilds(t);
    SampleLegTime(t);
    SampleRefused(Sample(t), t, plan, other);
  }

  lemma SampleBuilds(t: Value) returns (plan: Plan)
    ensures IsSamplePlan(Sample(t), t, plan)
  {
    SampleIs(t);
    SampleShape(Sample(t), t);
    plan := Plan(BuildActions(Sample(t), t, true).value, CAS_POLICY, map[]);
  }

  lemma SampleRefused(rows: Rows, t: Value, plan: Plan, other: Value)
    requires IsSamplePlan(rows, t, plan) && other != t
    requires LEG in rows && "updated_at" in rows[LEG] && rows[LEG]["updated_at"] == t
    ensures Built(rows, t, plan) && RefusedAtTheEnd(Moved(rows, other), plan)
  {
    SampleOpens(rows, t, plan);
    MovedLegIsRefused(rows, t, plan, other);
  }

  lemma SampleLegTime(t: Value)
    ensures LEG in Sample(t) && "updated_at" in Sample(t)[LEG] && Sample(t)[LEG]["updated_at"] == t
  {
    SampleAt(t, 4);
    assert KeyAt(4) == LEG;
    LegUpdate(t);
    RowHasExpected(EntryAt(4, t));
  }

  lemma LegUpdate(t: Value)
    ensures "updated_at" in EntryAt(4, t).update && EntryAt(4, t).update["updated_at"] == t
    ensures "updated_at" !in EntryAt(4, t).expected && "id" !in EntryAt(4, t).expected && "updated_at" != "id"
  {
    assert |"updated_at"| == 10 && |"id"| == 2 && "updated_at"[0] == 'u';
  }
}
