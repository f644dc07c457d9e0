/** What happens when several applies run at the same time: each is split into its check, its insert, its
    submission and its closing mark. The unique index decides whether one position can receive two orders. */
module BackupStopRaces {
  import opened Options
  import opened BackupStop

  /** Where the worker that inserted a row has got to. */
  datatype Phase = Reserved | Submitted

  datatype Race = Race(rows: seq<Row>, phase: map<int, Phase>, tickets: multiset<string>, sent: seq<int>)

  datatype Step =
    | Check(pos: string)
    | InsertRow(pos: string, payload: Payload)
    | SendOrder(row: int)
    | MarkRow(row: int, status: Status)

  /** The insert is refused by the unique index when an indexed row of the position exists. */
  predicate Free(rows: seq<Row>, pos: string, index: set<Status>) {
    forall i | 0 <= i < |rows| :: !(rows[i].pos == pos && rows[i].status in index)
  }

  /** The statuses the closing marks write. */
  predicate Closing(s: Status) { s == PendingReadback || s == Active || s == UnknownOutcome }

  /** One worker's next move. A worker that dies just never moves again. */
  ghost predicate Next(index: set<Status>, s: Race, step: Step, t: Race) {
    match step
    case Check(pos) =>
      ExistingBackup(s.rows, pos) == None && t == s.(tickets := s.tickets + multiset{pos})
    case InsertRow(pos, payload) =>
      && pos in s.tickets
      && if Free(s.rows, pos, index)
         then t == s.(tickets := s.tickets - multiset{pos}, rows := s.rows + [Row(pos, payload, Submitting, None)],
                      phase := s.phase[|s.rows| := Reserved])
         else t == s.(tickets := s.tickets - multiset{pos})
    case SendOrder(i) =>
      && i in s.phase && s.phase[i] == Reserved && 0 <= i < |s.rows| && s.rows[i].status == Submitting
      && t == s.(sent := s.sent + [i], phase := s.phase[i := Submitted])
    case MarkRow(i, status) =>
      && i in s.phase && 0 <= i < |s.rows| && Closing(status)
      && t == s.(rows := s.rows[i := s.rows[i].(status := status)], phase := s.phase - {i})
  }

  ghost predicate Run(index: set<Status>, states: seq<Race>, steps: seq<Step>) {
    |states| == |steps| + 1 && forall i | 0 <= i < |steps| :: Next(index, states[i], steps[i], states[i + 1])
  }

  /** Each order went out for its own row; the rows with work in hand or an order out still block. */
  ghost predicate Tidy(s: Race) {
    && (forall i | i in s.phase :: 0 <= i < |s.rows| && Blocking(s.rows[i].status))
    && (forall k | 0 <= k < |s.sent| :: 0 <= s.sent[k] < |s.rows| && Blocking(s.rows[s.sent[k]].status))
    && (forall k | 0 <= k < |s.sent| :: s.sent[k] in s.phase ==> s.phase[s.sent[k]] == Submitted)
    && forall j, k | 0 <= j < k < |s.sent| :: s.sent[j] != s.sent[k]
  }

  /** No position has two rows in indexed statuses: what the unique index enforces. */
  predicate UniqueRows(rows: seq<Row>) {
    forall i, j | 0 <= i < j < |rows| && Blocking(rows[i].status) && Blocking(rows[j].status) ::
      rows[i].pos != rows[j].pos
  }

  lemma TidyStep(index: set<Status>, s: Race, step: Step, t: Race)
    requires Tidy(s) && Next(index, s, step, t)
    ensures Tidy(t)
  {
  }

  /** An index over every blocking status. */
  predicate Covers(index: set<Status>) {
    Submitting in index && PendingReadback in index && Active in index && UnknownOutcome in index
  }

  lemma UniqueStep(index: set<Status>, s: Race, step: Step, t: Race)
    requires Covers(index) && Tidy(s) && UniqueRows(s.rows) && Next(index, s, step, t)
    ensures UniqueRows(t.rows)
  {
    match step
    case Check(pos) =>
    case InsertRow(pos, payload) =>
      forall i | 0 <= i < |s.rows| && Free(s.rows, pos, index) && Blocking(s.rows[i].status)
        ensures s.rows[i].pos != pos
      {
        assert s.rows[i].status in index;
      }
    case SendOrder(i) =>
    case MarkRow(i, status) =>
      assert forall j | 0 <= j < |s.rows| ::
        t.rows[j].pos == s.rows[j].pos && (Blocking(t.rows[j].status) <==> Blocking(s.rows[j].status));
  }

  /** No two orders went out for one position. */
  ghost predicate OneOrderEach(s: Race) {
    forall j, k | 0 <= j < k < |s.sent| && 0 <= s.sent[j] < |s.rows| && 0 <= s.sent[k] < |s.rows| ::
      s.rows[s.sent[j]].pos != s.rows[s.sent[k]].pos
  }

  lemma {:induction false} RunTidy(index: set<Status>, states: seq<Race>, steps: seq<Step>, n: nat)
    requires Run(index, states, steps) && n < |states| && Tidy(states[0])
    ensures Tidy(states[n])
    ensures Covers(index) && UniqueRows(states[0].rows) ==> UniqueRows(states[n].rows)
  {
    if n > 0 {
      RunTidy(index, states, steps, n - 1);
      assert Next(index, states[n - 1], steps[n - 1], states[n - 1 + 1]);
      TidyStep(index, states[n - 1], steps[n - 1], states[n]);
      if Covers(index) && UniqueRows(states[n - 1].rows) { UniqueStep(index, states[n - 1], steps[n - 1], states[n]); }
    }
  }

  /** With an index over every blocking status, no interleaving of any number of workers, some of them
      dying anywhere, sends two orders for one position. */
  lemma CoveringIndexIsSafe(index: set<Status>, states: seq<Race>, steps: seq<Step>, n: nat)
    requires Covers(index) && Run(index, states, steps) && n < |states|
    requires Tidy(states[0]) && UniqueRows(states[0].rows)
    ensures OneOrderEach(states[n])
  {
    RunTidy(index, states, steps, n);
    var s := states[n];
    forall j, k | 0 <= j < k < |s.sent| ensures s.rows[s.sent[j]].pos != s.rows[s.sent[k]].pos {
      assert Blocking(s.rows[s.sent[j]].status) && Blocking(s.rows[s.sent[k]].status) && s.sent[j] != s.sent[k];
    }
  }

  const EMPTY := Race([], map[], multiset{}, [])

  // ---------------------------------------------------------------- an index with a gap

  // Two workers check the same position before either inserts.

  function Reserving(pos: string, payload: Payload): Row { Row(pos, payload, Submitting, None) }

  function Marked(pos: string, payload: Payload, status: Status): Row { Row(pos, payload, status, None) }

  lemma BothCheck(index: set<Status>, pos: string)
    ensures Next(index, EMPTY, Check(pos), EMPTY.(tickets := multiset{pos}))
    ensures Next(index, EMPTY.(tickets := multiset{pos}), Check(pos), EMPTY.(tickets := multiset{pos, pos}))
  {
  }

  lemma FirstInserts(index: set<Status>, pos: string, payload: Payload)
    ensures Next(index, EMPTY.(tickets := multiset{pos, pos}), InsertRow(pos, payload),
                 Race([Reserving(pos, payload)], map[0 := Reserved], multiset{pos}, []))
  {
    assert [] + [Reserving(pos, payload)] == [Reserving(pos, payload)];
    assert multiset{pos, pos} - multiset{pos} == multiset{pos};
  }

  lemma FirstSends(index: set<Status>, pos: string, payload: Payload)
    ensures Next(index, Race([Reserving(pos, payload)], map[0 := Reserved], multiset{pos}, []), SendOrder(0),
                 Race([Reserving(pos, payload)], map[0 := Submitted], multiset{pos}, [0]))
  {
    assert map[0 := Reserved][0 := Submitted] == map[0 := Submitted];
  }

  lemma FirstMarks(index: set<Status>, pos: string, payload: Payload, status: Status)
    requires Closing(status)
    ensures Next(index, Race([Reserving(pos, payload)], map[0 := Submitted], multiset{pos}, [0]), MarkRow(0, status),
                 Race([Marked(pos, payload, status)], map[], multiset{pos}, [0]))
  {
    assert map[0 := Submitted] - {0} == map[];
    assert [Reserving(pos, payload)][0 := Marked(pos, payload, status)] == [Marked(pos, payload, status)];
  }

  /** The second insert goes through when the first row's status is not indexed. */
  lemma SecondInserts(index: set<Status>, first: Row, phase: map<int, Phase>, pos: string, payload: Payload)
    requires first.status !in index && 1 !in phase
    ensures Next(index, Race([first], phase, multiset{pos}, [0]), InsertRow(pos, payload),
                 Race([first, Reserving(pos, payload)], phase[1 := Reserved], multiset{}, [0]))
  {
    assert [first] + [Reserving(pos, payload)] == [first, Reserving(pos, payload)];
    assert multiset{pos} - multiset{pos} == multiset{};
  }

  lemma SecondSends(index: set<Status>, first: Row, phase: map<int, Phase>, pos: string, payload: Payload)
    ensures Next(index, Race([first, Reserving(pos, payload)], phase[1 := Reserved], multiset{}, [0]), SendOrder(1),
                 Race([first, Reserving(pos, payload)], phase[1 := Submitted], multiset{}, [0, 1]))
  {
    assert phase[1 := Reserved][1 := Submitted] == phase[1 := Submitted];
    assert [0] + [1] == [0, 1];
  }

  lemma OneStepEarlier(index: set<Status>, s: Race, step: Step, states: seq<Race>, steps: seq<Step>)
    returns (longer: seq<Race>, more: seq<Step>)
    requires Run(index, states, steps) && Next(index, s, step, states[0])
    ensures Run(index, longer, more) && longer[0] == s && longer[|more|] == states[|steps|]
  {
    longer, more := [s] + states, [step] + steps;
    forall i | 0 <= i < |more| ensures Next(index, longer[i], more[i], longer[i + 1]) {
      if i > 0 { assert Next(index, states[i - 1], steps[i - 1], states[i - 1 + 1]); }
    }
  }

  /** The second worker's half of the run, once the first row has a status the index misses. */
  lemma SecondHalf(index: set<Status>, first: Row, phase: map<int, Phase>, payload: Payload)
    returns (states: seq<Race>, steps: seq<Step>)
    requires first.status !in index && 1 !in phase
    ensures Run(index, states, steps) && states[0] == Race([first], phase, multiset{first.pos}, [0])
    ensures !OneOrderEach(states[|steps|])
  {
    var pos := first.pos;
    var last := Race([first, Reserving(pos, payload)], phase[1 := Submitted], multiset{}, [0, 1]);
    states, steps := [last], [];
    SecondSends(index, first, phase, pos, payload);
    var both := Race([first, Reserving(pos, payload)], phase[1 := Reserved], multiset{}, [0]);
    states, steps := OneStepEarlier(index, both, SendOrder(1), states, steps);
    SecondInserts(index, first, phase, pos, payload);
    states, steps := OneStepEarlier(index, Race([first], phase, multiset{pos}, [0]), InsertRow(pos, payload), states,
      steps);
    assert last.rows[last.sent[0]].pos == last.rows[last.sent[1]].pos;
  }

  /** Any index that misses a blocking status lets two overlapping applies send two orders for one position:
      both check, the first inserts, sends and reaches the missed status, and then the second inserts. */
  lemma GapAllowsTwoOrders(index: set<Status>, missed: Status, pos: string, payload: Payload)
    returns (states: seq<Race>, steps: seq<Step>)
    requires Blocking(missed) && missed !in index
    ensures Run(index, states, steps) && states[0] == EMPTY && !OneOrderEach(states[|steps|])
  {
    var reserving := Reserving(pos, payload);
    if missed == Submitting {
      states, steps := SecondHalf(index, reserving, map[0 := Submitted], payload);
    } else {
      states, steps := SecondHalf(index, Marked(pos, payload, missed), map[], payload);
      FirstMarks(index, pos, payload, missed);
      states, steps := OneStepEarlier(index, Race([reserving], map[0 := Submitted], multiset{pos}, [0]),
        MarkRow(0, missed), states, steps);
    }
    FirstSends(index, pos, payload);
    states, steps := OneStepEarlier(index, Race([reserving], map[0 := Reserved], multiset{pos}, []), SendOrder(0),
      states, steps);
    FirstInserts(index, pos, payload);
    states, steps := OneStepEarlier(index, EMPTY.(tickets := multiset{pos, pos}), InsertRow(pos, payload), states,
      steps);
    BothCheck(index, pos);
    states, steps := OneStepEarlier(index, EMPTY.(tickets := multiset{pos}), Check(pos), states, steps);
    states, steps := OneStepEarlier(index, EMPTY, Check(pos), states, steps);
  }

  /** No run from an empty table sends two orders for one position. */
  ghost predicate Safe(index: set<Status>) {
    forall states, steps | Run(index, states, steps) && states[0] == EMPTY :: OneOrderEach(states[|steps|])
  }

  /** The index is safe exactly when it covers every blocking status. */
  lemma IndexIsSafeIff(index: set<Status>)
    ensures Safe(index) <==> Covers(index)
  {
    if Covers(index) {
      forall states, steps | Run(index, states, steps) && states[0] == EMPTY ensures OneOrderEach(states[|steps|]) {
        CoveringIndexIsSafe(index, states, steps, |steps|);
      }
    } else {
      var missed := if Submitting !in index then Submitting else if PendingReadback !in index then PendingReadback
                    else if Active !in index then Active else UnknownOutcome;
      var states, steps := GapAllowsTwoOrders(index, missed, "1", Payload("{}"));
    }
  }

  /** The statuses the stored index really covers: a row that waits for its read-back is not among them. */
  const STORED_INDEX: set<Status> := {Submitting, Active, UnknownOutcome}

  /** With the stored index, two overlapping applies send two orders for one position. */
  lemma StoredIndexAllowsTwoOrders(pos: string, payload: Payload) returns (states: seq<Race>, steps: seq<Step>)
    ensures Run(STORED_INDEX, states, steps) && states[0] == EMPTY && !OneOrderEach(states[|steps|])
  {
    states, steps := GapAllowsTwoOrders(STORED_INDEX, PendingReadback, pos, payload);
  }
}
