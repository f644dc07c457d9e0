/** The exact apply / rollback engine: a plan of full-row compare-and-set updates,
    applied in one transaction, idempotent and reversible.  The engine works for any
    plan whose actions have distinct keys. */
module Terminalization {
  import opened Options

  datatype Value = Null | Num(n: int) | Text(s: string)

  type Row = map<string, Value>

  datatype Key = Key(table: string, pk: int)

  type Rows = map<Key, Row>

  datatype Action = Action(key: Key, before: Row, after: Row)

  /** `ignored` is the policy: columns whose before-image is not compared. */
  datatype Plan = Plan(actions: seq<Action>, ignored: map<Key, set<string>>, counts: map<string, nat>)

  datatype Outcome = Refused(reason: string) | Already | Done

  const BATCHES := "strategy_management_batches"
  const TARGET := 150
  const UNSAFE: set<string> := {"executing", "reserved", "submitted", "submit_unknown", "reconciling"}

  /** Every row is stored under its own primary key. */
  ghost predicate Keyed(rows: Rows) {
    forall k | k in rows :: "id" in rows[k] && rows[k]["id"] == Num(k.pk)
  }

  predicate WellFormedAction(a: Action, ignored: set<string>) {
    && a.before.Keys == a.after.Keys
    && "id" in a.before && a.before["id"] == Num(a.key.pk) && a.after["id"] == Num(a.key.pk)
    && "id" !in ignored
    && Changed(a) != {}
  }

  ghost predicate DistinctKeys(actions: seq<Action>) {
    forall i, j | 0 <= i < j < |actions| :: actions[i].key != actions[j].key
  }

  ghost predicate WellFormed(plan: Plan) {
    && DistinctKeys(plan.actions)
    && forall a | a in plan.actions :: WellFormedAction(a, Ignored(plan, a))
  }

  function Ignored(plan: Plan, a: Action): set<string> {
    if a.key in plan.ignored then plan.ignored[a.key] else {}
  }

  // ---------------------------------------------------------------- reading and updating

  function Swap(a: Action): Action {
    Action(a.key, a.after, a.before)
  }

  /** A rollback runs the reversed actions from their after-image to their before-image. */
  function Orient(actions: seq<Action>, reverse: bool): (r: seq<Action>)
    ensures |r| == |actions|
    ensures forall i | 0 <= i < |actions| ::
              r[i] == if reverse then Swap(actions[|actions| - 1 - i]) else actions[i]
  {
    if reverse then seq(|actions|, i requires 0 <= i < |actions| => Swap(actions[|actions| - 1 - i])) else actions
  }

  function Columns(row: Row, columns: set<string>): Row {
    map c | c in row && c in columns :: row[c]
  }

  function Read(rows: Rows, a: Action): Option<Row> {
    if a.key in rows && a.before.Keys <= rows[a.key].Keys then Some(Columns(rows[a.key], a.before.Keys)) else None
  }

  predicate EqualUnder(ignored: set<string>, actual: Row, expected: Row) {
    actual - ignored == expected - ignored
  }

  function Changed(a: Action): set<string> {
    set c | c in a.before && c in a.after && c != "id" && a.before[c] != a.after[c]
  }

  function Assignments(a: Action): Row {
    map c | c in Changed(a) :: a.after[c]
  }

  function Predicates(a: Action, ignored: set<string>): Row {
    a.before - ignored
  }

  predicate Matches(row: Row, predicates: Row) {
    forall c | c in predicates :: c in row && row[c] == predicates[c]
  }

  function Hits(rows: Rows, table: string, predicates: Row): set<Key> {
    set k | k in rows && k.table == table && Matches(rows[k], predicates)
  }

  /** `UPDATE table SET assignments WHERE predicates`. */
  function SqlUpdate(rows: Rows, table: string, assignments: Row, predicates: Row): Rows {
    var hits := Hits(rows, table, predicates);
    map k | k in rows :: if k in hits then rows[k] + assignments else rows[k]
  }

  /** An update that must change exactly one row; with nothing to set it is a syntax error. */
  function CasUpdate(rows: Rows, a: Action, ignored: set<string>): Option<Rows> {
    if Changed(a) != {} && |Hits(rows, a.key.table, Predicates(a, ignored))| == 1
    then Some(SqlUpdate(rows, a.key.table, Assignments(a), Predicates(a, ignored)))
    else None
  }

  function CasAll(rows: Rows, plan: Plan, steps: seq<Action>): Option<Rows> {
    if steps == [] then Some(rows)
    else
      match CasAll(rows, plan, steps[..|steps| - 1])
      case None => None
      case Some(mid) => CasUpdate(mid, steps[|steps| - 1], Ignored(plan, steps[|steps| - 1]))
  }

  // ---------------------------------------------------------------- the opening and closing checks

  function StatusOf(row: Row): Value {
    if "status" in row then row["status"] else Null
  }

  function RecoveryIds(rows: Rows): set<int> {
    set k | k in rows && k.table == BATCHES && StatusOf(rows[k]) == Text("recovery_required") :: k.pk
  }

  predicate NoneUnsafe(rows: Rows) {
    forall k | k in rows && k.table == BATCHES :: forall s | s in UNSAFE :: StatusOf(rows[k]) != Text(s)
  }

  /** Forward, batch 150 is the only one to recover; after it, and before a rollback, there is none. */
  predicate QuietTargets(rows: Rows, reverse: bool) {
    RecoveryIds(rows) == (if reverse then {} else {TARGET}) && NoneUnsafe(rows)
  }

  function TableCount(rows: Rows, table: string): nat {
    |set k | k in rows && k.table == table|
  }

  predicate CountsAre(rows: Rows, counts: map<string, nat>) {
    forall t | t in counts :: counts[t] == TableCount(rows, t)
  }

  /** All rows are readable and equal the before (or after) images, up to the policy. */
  predicate RowsAre(rows: Rows, plan: Plan, steps: seq<Action>, target: bool) {
    forall i | 0 <= i < |steps| ::
      && Read(rows, steps[i]).Some?
      && EqualUnder(Ignored(plan, steps[i]), Read(rows, steps[i]).value,
                    if target then steps[i].after else steps[i].before)
  }

  predicate Readable(rows: Rows, steps: seq<Action>) {
    forall i | 0 <= i < |steps| :: Read(rows, steps[i]).Some?
  }

  predicate Exactly(rows: Rows, steps: seq<Action>) {
    forall i | 0 <= i < |steps| :: Read(rows, steps[i]) == Some(steps[i].after)
  }

  function UnsettledReason(rows: Rows, reverse: bool): Outcome {
    if RecoveryIds(rows) != (if reverse then {} else {TARGET}) then Refused("target_set_changed")
    else Refused("management_window_not_quiet")
  }

  /** The closing checks of a call that reached its updates; `rows` is what a refusal rolls back to. */
  function Concluded(rows: Rows, updated: Option<Rows>, plan: Plan, steps: seq<Action>, reverse: bool,
      quickAfter: bool): (Outcome, Rows) {
    match updated
    case None => (Refused("cas_rowcount_changed"), rows)
    case Some(final) =>
      if !Exactly(final, steps) then (Refused("postcondition_failed"), rows)
      else if !CountsAre(final, plan.counts) then (Refused("table_counts_changed"), rows)
      else if !QuietTargets(final, !reverse) then (UnsettledReason(final, !reverse), rows)
      else if !quickAfter then (Refused("quick_check_failed"), rows)
      else (Done, final)
  }

  /** The outcome of a whole call and the rows it leaves; `quick` and `quickAfter` are the integrity checks. */
  function Mutate(rows: Rows, plan: Plan, reverse: bool, quick: bool, quickAfter: bool): (Outcome, Rows) {
    var steps := Orient(plan.actions, reverse);
    if !quick then (Refused("quick_check_failed"), rows)
    else if !CountsAre(rows, plan.counts) then (Refused("table_counts_changed"), rows)
    else if !Readable(rows, steps) then (Refused("database_state_mixed"), rows)
    else if RowsAre(rows, plan, steps, true) then
      (if QuietTargets(rows, !reverse) then Already else UnsettledReason(rows, !reverse), rows)
    else if !RowsAre(rows, plan, steps, false) then (Refused("database_state_mixed"), rows)
    else if !QuietTargets(rows, reverse) then (UnsettledReason(rows, reverse), rows)
    else
      Concluded(rows, CasAll(rows, plan, steps), plan, steps, reverse, quickAfter)
  }

  // ---------------------------------------------------------------- the transaction

  class Database {
    var rows: Rows

    constructor (initial: Rows)
      ensures rows == initial
    {
      rows := initial;
    }

    /** Loads the row of every step and compares it with both images. */
    method CompareRows(plan: Plan, steps: seq<Action>) returns (readable: bool, atBefore: bool, atAfter: bool)
      ensures readable == Readable(rows, steps)
      ensures readable ==> atAfter == RowsAre(rows, plan, steps, true) && atBefore == RowsAre(rows, plan, steps, false)
    {
      readable, atBefore, atAfter := true, true, true;
      var i := 0;
      while i < |steps|
        invariant 0 <= i <= |steps| && readable
        invariant forall k | 0 <= k < i :: Read(rows, steps[k]).Some?
        invariant atAfter == forall k | 0 <= k < i ::
          EqualUnder(Ignored(plan, steps[k]), Read(rows, steps[k]).value, steps[k].after)
        invariant atBefore == forall k | 0 <= k < i ::
          EqualUnder(Ignored(plan, steps[k]), Read(rows, steps[k]).value, steps[k].before)
      {
        var row := Read(rows, steps[i]);
        if row == None {
          return false, atBefore, atAfter;
        }
        atAfter := atAfter && EqualUnder(Ignored(plan, steps[i]), row.value, steps[i].after);
        atBefore := atBefore && EqualUnder(Ignored(plan, steps[i]), row.value, steps[i].before);
        i := i + 1;
      }
    }

    /** The compare-and-set loop; it stops at the first update that does not change one row. */
    method UpdateRows(plan: Plan, steps: seq<Action>) returns (updated: bool)
      modifies this
      ensures updated == old(CasAll(rows, plan, steps)).Some?
      ensures updated ==> rows == old(CasAll(rows, plan, steps)).value
    {
      updated := true;
      ghost var start := rows;
      var i := 0;
      while i < |steps|
        invariant 0 <= i <= |steps|
        invariant CasAll(start, plan, steps[..i]) == Some(rows)
      {
        var next := CasUpdate(rows, steps[i], Ignored(plan, steps[i]));
        assert steps[..i + 1][..i] == steps[..i];
        if next == None {
          CasAllStops(start, plan, steps, i + 1);
          return false;
        }
        rows := next.value;
        i := i + 1;
      }
      assert steps[..i] == steps;
    }

    /** One call: `BEGIN IMMEDIATE`, check, update row by row, check again, commit or roll back. */
    method MutatePlan(plan: Plan, reverse: bool, quick: bool, quickAfter: bool) returns (outcome: Outcome)
      modifies this
      ensures (outcome, rows) == old(Mutate(rows, plan, reverse, quick, quickAfter))
    {
      if !quick {
        return Refused("quick_check_failed");
      }
      if !CountsAre(rows, plan.counts) {
        return Refused("table_counts_changed");
      }
      var steps := Orient(plan.actions, reverse);
      var start := rows;
      var readable, atBefore, atAfter := CompareRows(plan, steps);
      if !readable {
        return Refused("database_state_mixed");
      }
      if atAfter {
        return if QuietTargets(rows, !reverse) then Already else UnsettledReason(rows, !reverse);
      }
      if !atBefore {
        return Refused("database_state_mixed");
      }
      if !QuietTargets(rows, reverse) {
        return UnsettledReason(rows, reverse);
      }
      var updated := UpdateRows(plan, steps);
      if !updated {
        rows := start;
        return Refused("cas_rowcount_changed");
      }
      if !Exactly(rows, steps) {
        rows := start;
        return Refused("postcondition_failed");
      }
      if !CountsAre(rows, plan.counts) {
        rows := start;
        return Refused("table_counts_changed");
      }
      if !QuietTargets(rows, !reverse) {
        outcome := UnsettledReason(rows, !reverse);
        rows := start;
        return outcome;
      }
      if !quickAfter {
        rows := start;
        return Refused("quick_check_failed");
      }
      outcome := Done;
    }
  }

  lemma {:induction false} CasAllStops(rows: Rows, plan: Plan, steps: seq<Action>, n: nat)
    requires n <= |steps| && CasAll(rows, plan, steps[..n]) == None
    ensures CasAll(rows, plan, steps) == None
    decreases |steps|
  {
    if n == |steps| {
      assert steps[..n] == steps;
    } else {
      var shorter := steps[..|steps| - 1];
      assert shorter[..n] == steps[..n];
      CasAllStops(rows, plan, shorter, n);
    }
  }

  // ---------------------------------------------------------------- one update

  /** The predicates name the primary key, so an update hits its own row or none. */
  lemma HitsOwnRow(rows: Rows, a: Action, ignored: set<string>)
    requires Keyed(rows) && WellFormedAction(a, ignored)
    ensures Hits(rows, a.key.table, Predicates(a, ignored)) ==
            if a.key in rows && Matches(rows[a.key], Predicates(a, ignored)) then {a.key} else {}
  {
    var p := Predicates(a, ignored);
    assert "id" in p && p["id"] == Num(a.key.pk);
    forall k | k in Hits(rows, a.key.table, p) ensures k == a.key {
      assert rows[k]["id"] == p["id"];
    }
  }

  lemma CasUpdateIs(rows: Rows, a: Action, ignored: set<string>)
    requires Keyed(rows) && WellFormedAction(a, ignored)
    ensures CasUpdate(rows, a, ignored) ==
            if a.key in rows && Matches(rows[a.key], Predicates(a, ignored))
            then Some(rows[a.key := rows[a.key] + Assignments(a)]) else None
  {
    HitsOwnRow(rows, a, ignored);
    if a.key in rows && Matches(rows[a.key], Predicates(a, ignored)) {
      assert SqlUpdate(rows, a.key.table, Assignments(a), Predicates(a, ignored)) ==
        rows[a.key := rows[a.key] + Assignments(a)];
    }
  }

  /** A row equal to the before-image under the policy is exactly a row the update matches. */
  lemma MatchesIffEqual(rows: Rows, a: Action, ignored: set<string>)
    requires WellFormedAction(a, ignored) && Read(rows, a).Some?
    ensures EqualUnder(ignored, Read(rows, a).value, a.before) <==> Matches(rows[a.key], Predicates(a, ignored))
  {
    var actual := Read(rows, a).value - ignored;
    var expected := a.before - ignored;
    if Matches(rows[a.key], Predicates(a, ignored)) {
      assert actual.Keys == expected.Keys;
    }
    if actual == expected {
      forall c | c in expected ensures c in rows[a.key] && rows[a.key][c] == expected[c] {
        assert c in actual && actual[c] == expected[c];
      }
    }
  }

  ghost predicate Assignable(rows: Rows, plan: Plan, steps: seq<Action>) {
    && Keyed(rows) && DistinctKeys(steps)
    && (forall a | a in steps :: WellFormedAction(a, Ignored(plan, a)))
    && RowsAre(rows, plan, steps, false)
  }

  /** What an update of every step leaves, stated pointwise. */
  ghost predicate IsAssigned(rows: Rows, final: Rows, steps: seq<Action>) {
    && final.Keys == rows.Keys && Keyed(final)
    && (forall i | 0 <= i < |steps| ::
       steps[i].key in rows && final[steps[i].key] == rows[steps[i].key] + Assignments(steps[i]))
    && (forall k | k in rows && (forall i | 0 <= i < |steps| :: steps[i].key != k) :: final[k] == rows[k])
  }
}
