/** One-position-at-a-time repair of backup stops: a read-only plan, and an apply that reserves a row
    before it submits anything to the exchange. */
module BackupStop {
  import opened Options
  import opened Texts

  datatype Status = Submitting | PendingReadback | Active | UnknownOutcome | OtherStatus(text: string)

  /** A stored backup stop; its id is its place in the table. */
  datatype Row = Row(pos: string, payload: Payload, status: Status, order: Option<string>)

  datatype Payload = Payload(text: string)

  datatype Primary = Primary(order: string, stop: string)

  datatype Market = Market(instrument: string, side: string, size: string, liquidation: string, positions: seq<string>)

  /** Everything a reviewed action says; its fingerprint is injective, so it stands for itself. */
  datatype Details = Details(binding: int, leg: int, pos: string, market: Market, primary: Primary, payload: Payload)

  datatype Action = Action(details: Details, id: Details)

  datatype Reason =
    | PrimaryNotVerified | SpecUnavailable | SnapshotUnavailable | PositionNotUnique | IdentityMismatch | Unsafe
    | Readback | OutcomeUnknown | MissingOnExchange | SimilarUnscoped

  datatype Conflict = Conflict(pos: string, reason: Reason)

  datatype Evidence =
    | Stored(binding: int, leg: int, pos: string, primary: string, order: string, status: Option<Status>)
    | Covered(pos: string, order: string)
    | Live(pos: string, size: string, liquidation: string)

  datatype Fingerprint = Fingerprint(actions: seq<Action>, conflicts: seq<Conflict>, database: seq<Evidence>,
    exchange: seq<Evidence>)

  datatype Plan = Plan(actions: seq<Action>, conflicts: seq<Conflict>, fingerprint: Fingerprint)

  /** One active entry leg with what the database and the exchange say about it. */
  datatype Candidate = Candidate(
    binding: int, leg: int, rawPos: string, authoritative: bool, primary: Option<Primary>, specKnown: bool,
    snapshotOk: bool, liveMatches: nat, identityOk: bool, market: Market, payload: Option<Payload>,
    similar: bool, readsBack: set<string>)

  type World = seq<Candidate>

  // ---------------------------------------------------------------- planning

  predicate Blocking(s: Status) { !s.OtherStatus? }

  /** The oldest row that still speaks for a position. */
  function ExistingBackup(rows: seq<Row>, pos: string): (r: Option<Row>)
    ensures r.Some? ==> r.value in rows && r.value.pos == pos && Blocking(r.value.status)
    ensures r == None <==> forall i | 0 <= i < |rows| :: !(rows[i].pos == pos && Blocking(rows[i].status))
  {
    if rows == [] then None
    else if rows[0].pos == pos && Blocking(rows[0].status) then Some(rows[0])
    else ExistingBackup(rows[1..], pos)
  }

  function OrderOf(r: Row): string { if r.order.Some? then r.order.value else "" }

  function StoredEvidence(c: Candidate, pos: string, existing: Option<Row>): Evidence {
    Stored(c.binding, c.leg, pos, if c.primary.Some? then c.primary.value.order else "",
           if existing.Some? then OrderOf(existing.value) else "",
           if existing.Some? then Some(existing.value.status) else None)
  }

  datatype Decision = Refuse(reason: Reason) | Cover(order: string) | Act(details: Details)

  function Decide(c: Candidate, pos: string, existing: Option<Row>): Decision {
    if c.primary == None || Strip(c.primary.value.stop) == "" then Refuse(PrimaryNotVerified)
    else if !c.specKnown then Refuse(SpecUnavailable)
    else if !c.snapshotOk then Refuse(SnapshotUnavailable)
    else if c.liveMatches != 1 then Refuse(PositionNotUnique)
    else if !c.identityOk then Refuse(IdentityMismatch)
    else if c.payload == None then Refuse(Unsafe)
    else
      match existing
      case Some(row) =>
        if row.status == Active && Strip(OrderOf(row)) != "" && OrderOf(row) in c.readsBack then Cover(OrderOf(row))
        else if row.status == Submitting || row.status == PendingReadback then Refuse(Readback)
        else if row.status == UnknownOutcome then Refuse(OutcomeUnknown)
        else Refuse(MissingOnExchange)
      case None =>
        if c.similar then Refuse(SimilarUnscoped)
        else Act(Details(c.binding, c.leg, pos, c.market, c.primary.value, c.payload.value))
  }

  function AddCandidate(done: Fingerprint, c: Candidate, rows: seq<Row>): Fingerprint {
    var pos := Strip(c.rawPos);
    if pos == "" || !c.authoritative then done
    else
      var existing := ExistingBackup(rows, pos);
      var next := done.(database := done.database + [StoredEvidence(c, pos, existing)]);
      match Decide(c, pos, existing)
      case Refuse(reason) => next.(conflicts := next.conflicts + [Conflict(pos, reason)])
      case Cover(order) => next.(exchange := next.exchange + [Covered(pos, order)])
      case Act(d) => next.(actions := next.actions + [Action(d, d)],
                           exchange := next.exchange + [Live(pos, c.market.size, c.market.liquidation)])
  }

  function Survey(world: World, rows: seq<Row>): Fingerprint {
    if world == [] then Fingerprint([], [], [], [])
    else AddCandidate(Survey(world[..|world| - 1], rows), world[|world| - 1], rows)
  }

  function BuildPlan(world: World, rows: seq<Row>): Plan {
    var f := Survey(world, rows);
    Plan(f.actions, f.conflicts, f)
  }

  // ---------------------------------------------------------------- applying one action

  /** How far the call gets and what the exchange does. */
  datatype Fate =
    | DiesAfterToken
    | DiesAfterReserve
    | RaisesUnsent
    | DiesAfterSending
    | RaisesSent
    | Answers(readback: Answer)

  datatype Answer = NotConfirmed | DiesBeforeMark | Confirmed(order: string)

  datatype Call = Call(plan: Plan, pos: string, action: Details, expected: Fingerprint, token: string, world: World,
    fate: Fate)

  datatype Sent = Sent(pos: string, payload: Payload)

  datatype Desk = Desk(rows: seq<Row>, tokens: set<string>, sent: seq<Sent>)

  datatype Outcome = Rejected | Crashed | Marked(status: Status)

  function Matching(actions: seq<Action>, pos: string, id: Details): seq<Action> {
    if actions == [] then []
    else if actions[0].details.pos == pos && actions[0].id == id then [actions[0]] + Matching(actions[1..], pos, id)
    else Matching(actions[1..], pos, id)
  }

  /** The statuses of the partial unique index on positions. */
  predicate Indexed(s: Status) { s == Submitting || s == Active || s == UnknownOutcome }

  predicate PositionFree(rows: seq<Row>, pos: string) {
    forall i | 0 <= i < |rows| :: !(rows[i].pos == pos && Indexed(rows[i].status))
  }

  predicate OrderFree(rows: seq<Row>, order: string) {
    forall i | 0 <= i < |rows| :: rows[i].order != Some(order)
  }

  /** The checks before anything is written. */
  function Selected(d: Desk, call: Call): Option<Action> {
    var pos := Strip(call.pos);
    var reviewed := Matching(call.plan.actions, pos, call.action);
    var current := BuildPlan(call.world, d.rows);
    var selected := Matching(current.actions, pos, call.action);
    if pos == "" || |Strip(call.token)| < 8 || call.expected != call.plan.fingerprint || |reviewed| != 1
       || Strip(call.token) in d.tokens || current.fingerprint != call.expected || |selected| != 1
    then None else Some(selected[0])
  }

  function Mark(d: Desk, i: nat, status: Status): Desk
    requires i < |d.rows|
  {
    d.(rows := d.rows[i := d.rows[i].(status := status)])
  }

  function Finish(d: Desk, i: nat, answer: Answer): (Desk, Outcome)
    requires i < |d.rows|
  {
    match answer
    case NotConfirmed => (Mark(d, i, PendingReadback), Marked(PendingReadback))
    case DiesBeforeMark => (d, Crashed)
    case Confirmed(order) =>
      if OrderFree(d.rows, order)
      then (d.(rows := d.rows[i := d.rows[i].(status := Active, order := Some(order))]), Marked(Active))
      else (d, Crashed)
  }

  function Submit(d: Desk, i: nat, a: Action, fate: Fate): (Desk, Outcome)
    requires i < |d.rows|
  {
    var sent := d.(sent := d.sent + [Sent(a.details.pos, a.details.payload)]);
    match fate
    case DiesAfterToken => (d, Crashed)
    case DiesAfterReserve => (d, Crashed)
    case RaisesUnsent => (Mark(d, i, UnknownOutcome), Marked(UnknownOutcome))
    case DiesAfterSending => (sent, Crashed)
    case RaisesSent => (Mark(sent, i, UnknownOutcome), Marked(UnknownOutcome))
    case Answers(answer) => Finish(sent, i, answer)
  }

  function Apply(d: Desk, call: Call): (Desk, Outcome) {
    match Selected(d, call)
    case None => (d, Rejected)
    case Some(a) =>
      var spent := d.(tokens := d.tokens + {Strip(call.token)});
      if call.fate == DiesAfterToken || !PositionFree(d.rows, a.details.pos) then (spent, Crashed)
      else
        var held := spent.(rows := spent.rows + [Row(a.details.pos, a.details.payload, Submitting, None)]);
        Submit(held, |d.rows|, a, call.fate)
  }

  // ---------------------------------------------------------------- the operations as the program runs them

  class RepairDesk {
    var rows: seq<Row>
    var tokens: set<string>
    var sent: seq<Sent>

    ghost function Value(): Desk
      reads this
    {
      Desk(rows, tokens, sent)
    }

    method MakePlan(world: World) returns (plan: Plan)
      ensures plan == BuildPlan(world, rows)
    {
      var actions: seq<Action>, conflicts: seq<Conflict> := [], [];
      var database: seq<Evidence>, exchange: seq<Evidence> := [], [];
      var n := 0;
      while n < |world|
        invariant 0 <= n <= |world|
        invariant Fingerprint(actions, conflicts, database, exchange) == Survey(world[..n], rows)
      {
        assert world[..n + 1][..n] == world[..n];
        var c := world[n];
        n := n + 1;
        var pos := Strip(c.rawPos);
        if pos == "" || !c.authoritative {
          continue;
        }
        var existing := ExistingBackup(rows, pos);
        database := database + [StoredEvidence(c, pos, existing)];
        match Decide(c, pos, existing)
        case Refuse(reason) => conflicts := conflicts + [Conflict(pos, reason)];
        case Cover(order) => exchange := exchange + [Covered(pos, order)];
        case Act(d) =>
          actions := actions + [Action(d, d)];
          exchange := exchange + [Live(pos, c.market.size, c.market.liquidation)];
      }
      assert world[..n] == world;
      plan := Plan(actions, conflicts, Fingerprint(actions, conflicts, database, exchange));
    }

    method SetStatus(i: nat, status: Status) returns (r: Outcome)
      requires i < |rows|
      modifies this`rows
      ensures Value() == Mark(old(Value()), i, status) && r == Marked(status)
    {
      rows := rows[i := rows[i].(status := status)];
      r := Marked(status);
    }

    /** Reserve, submit, read back, record: the call stops wherever its fate says it dies. */
    method ApplyAction(call: Call) returns (r: Outcome)
      modifies this
      ensures (Value(), r) == Apply(old(Value()), call)
    {
      var pos := Strip(call.pos);
      var reviewed := Matching(call.plan.actions, pos, call.action);
      if pos == "" || |Strip(call.token)| < 8 || call.expected != call.plan.fingerprint || |reviewed| != 1 {
        return Rejected;
      }
      if Strip(call.token) in tokens {
        return Rejected;
      }
      var current := MakePlan(call.world);
      var selected := Matching(current.actions, pos, call.action);
      if current.fingerprint != call.expected || |selected| != 1 {
        return Rejected;
      }
      var a := selected[0];
      tokens := tokens + {Strip(call.token)};
      if call.fate == DiesAfterToken || !PositionFree(rows, a.details.pos) {
        return Crashed;
      }
      var i := |rows|;
      rows := rows + [Row(a.details.pos, a.details.payload, Submitting, None)];
      if call.fate == DiesAfterReserve {
        return Crashed;
      }
      if call.fate != RaisesUnsent {
        sent := sent + [Sent(a.details.pos, a.details.payload)];
      }
      match call.fate
      case RaisesUnsent => r := SetStatus(i, UnknownOutcome);
      case RaisesSent => r := SetStatus(i, UnknownOutcome);
      case Answers(NotConfirmed) => r := SetStatus(i, PendingReadback);
      case Answers(Confirmed(order)) =>
        if !OrderFree(rows, order) {
          return Crashed;
        }
        rows := rows[i := rows[i].(status := Active, order := Some(order))];
        r := Marked(Active);
      case _ => r := Crashed;
    }
  }

  // ---------------------------------------------------------------- what a plan never contains

  /** An action names a position that no stored row speaks for, under its own fingerprint. */
  predicate Unreserved(a: Action, rows: seq<Row>) {
    a.id == a.details && ExistingBackup(rows, a.details.pos) == None
  }

  lemma {:induction false} PlanSkipsReserved(world: World, rows: seq<Row>)
    ensures forall i | 0 <= i < |Survey(world, rows).actions| :: Unreserved(Survey(world, rows).actions[i], rows)
  {
    if world != [] { PlanSkipsReserved(world[..|world| - 1], rows); }
  }

  /** A leg that may be given a backup stop now: everything about it is known, nothing speaks for its
      position and no unowned order on the exchange could be mistaken for the new one. */
  predicate Plannable(c: Candidate, rows: seq<Row>) {
    && Strip(c.rawPos) != "" && c.authoritative
    && c.primary.Some? && Strip(c.primary.value.stop) != "" && c.specKnown && c.snapshotOk
    && c.liveMatches == 1 && c.identityOk && c.payload.Some? && !c.similar
    && ExistingBackup(rows, Strip(c.rawPos)) == None
  }

  function ActionFor(c: Candidate): Action
    requires c.primary.Some? && c.payload.Some?
  {
    var d := Details(c.binding, c.leg, Strip(c.rawPos), c.market, c.primary.value, c.payload.value);
    Action(d, d)
  }

  ghost predicate PlannedBy(world: World, rows: seq<Row>, a: Action) {
    exists c :: c in world && Plannable(c, rows) && a == ActionFor(c)
  }

  lemma AddPlans(done: Fingerprint, c: Candidate, rows: seq<Row>, a: Action)
    ensures a in AddCandidate(done, c, rows).actions <==> a in done.actions || (Plannable(c, rows) && a == ActionFor(c))
  {
  }

  /** The plan holds exactly the actions of the legs that may be given a backup stop now. */
  lemma {:induction false} PlannedIff(world: World, rows: seq<Row>, a: Action)
    ensures a in BuildPlan(world, rows).actions <==> PlannedBy(world, rows, a)
  {
    if world != [] {
      var init, last := world[..|world| - 1], world[|world| - 1];
      PlannedIff(init, rows, a);
      AddPlans(Survey(init, rows), last, rows, a);
      assert world == init + [last];
      if Plannable(last, rows) && a == ActionFor(last) { assert last in world; }
      if c :| c in init && Plannable(c, rows) && a == ActionFor(c) { assert c in world; }
    }
  }

  lemma {:induction false} MatchingHas(actions: seq<Action>, pos: string, id: Details)
    ensures forall i | 0 <= i < |Matching(actions, pos, id)| ::
      Matching(actions, pos, id)[i] in actions && Matching(actions, pos, id)[i].details.pos == pos &&
        Matching(actions, pos, id)[i].id == id
  {
    if actions != [] { MatchingHas(actions[1..], pos, id); }
  }

  /** What is selected was planned: nothing speaks for its position yet, and it is the reviewed action. */
  lemma SelectedIs(d: Desk, call: Call)
    requires Selected(d, call).Some?
    ensures var a := Selected(d, call).value;
      a.id == call.action == a.details && a.details.pos == Strip(call.pos) &&
        ExistingBackup(d.rows, a.details.pos) == None
  {
    var current := BuildPlan(call.world, d.rows);
    PlanSkipsReserved(call.world, d.rows);
    MatchingHas(current.actions, Strip(call.pos), call.action);
    var a := Selected(d, call).value;
    var i :| 0 <= i < |current.actions| && current.actions[i] == a;
    assert Unreserved(current.actions[i], d.rows);
  }

  // ---------------------------------------------------------------- any sequence of calls

  function SentFor(sent: seq<Sent>, pos: string): seq<Sent> {
    if sent == [] then []
    else if sent[|sent| - 1].pos == pos then SentFor(sent[..|sent| - 1], pos) + [sent[|sent| - 1]]
    else SentFor(sent[..|sent| - 1], pos)
  }

  /** At most one submission for each position, and a row that blocks the next one wherever there is one. */
  ghost predicate OnceEach(d: Desk) {
    forall pos :: |SentFor(d.sent, pos)| <= 1 && (SentFor(d.sent, pos) != [] ==> ExistingBackup(d.rows, pos).Some?)
  }

  lemma RowsSpeak(rows: seq<Row>, i: nat)
    requires i < |rows| && Blocking(rows[i].status)
    ensures ExistingBackup(rows, rows[i].pos).Some?
  {
  }

  lemma StillSpoken(before: seq<Row>, after: seq<Row>, pos: string)
    requires ExistingBackup(before, pos).Some? && |before| <= |after|
    requires forall i | 0 <= i < |before| :: after[i] == before[i]
    ensures ExistingBackup(after, pos).Some?
  {
    var i :| 0 <= i < |before| && before[i].pos == pos && Blocking(before[i].status);
    RowsSpeak(after, i);
  }

  /** One call: earlier rows stay as they are, and a submission always leaves a blocking row behind it. */
  lemma ApplyShape(d: Desk, call: Call)
    ensures var e := Apply(d, call).0;
      && |d.rows| <= |e.rows| && (forall i | 0 <= i < |d.rows| :: e.rows[i] == d.rows[i])
      && (e.sent == d.sent
          || (Selected(d, call).Some? && e.sent == d.sent + [Sent(Strip(call.pos), call.action.payload)]
              && |e.rows| == |d.rows| + 1 && e.rows[|d.rows|].pos == Strip(call.pos)
              && Blocking(e.rows[|d.rows|].status)))
  {
    if Selected(d, call).Some? { SelectedIs(d, call); }
  }

  lemma OnceEachStep(d: Desk, e: Desk, pos: string, payload: Payload)
    requires OnceEach(d) && ExistingBackup(d.rows, pos) == None
    requires |e.rows| == |d.rows| + 1 && (forall i | 0 <= i < |d.rows| :: e.rows[i] == d.rows[i])
    requires e.rows[|d.rows|].pos == pos && Blocking(e.rows[|d.rows|].status)
    requires e.sent == d.sent + [Sent(pos, payload)]
    ensures OnceEach(e)
  {
    assert e.sent[..|e.sent| - 1] == d.sent;
    forall p ensures |SentFor(e.sent, p)| <= 1 && (SentFor(e.sent, p) != [] ==> ExistingBackup(e.rows, p).Some?) {
      if p == pos {
        assert SentFor(d.sent, pos) == [];
        RowsSpeak(e.rows, |d.rows|);
      } else if ExistingBackup(d.rows, p).Some? {
        StillSpoken(d.rows, e.rows, p);
      }
    }
  }

  lemma ApplyKeepsOnceEach(d: Desk, call: Call)
    requires OnceEach(d)
    ensures OnceEach(Apply(d, call).0)
  {
    var e := Apply(d, call).0;
    ApplyShape(d, call);
    if e.sent == d.sent {
      forall p | SentFor(d.sent, p) != [] ensures ExistingBackup(e.rows, p).Some? { StillSpoken(d.rows, e.rows, p); }
    } else {
      SelectedIs(d, call);
      OnceEachStep(d, e, Strip(call.pos), call.action.payload);
    }
  }

  function AfterCalls(d: Desk, calls: seq<Call>): Desk {
    if calls == [] then d else Apply(AfterCalls(d, calls[..|calls| - 1]), calls[|calls| - 1]).0
  }

  /** From any table of rows, over any sequence of calls, whatever their plans, worlds and crashes: each
      position receives at most one submission. */
  lemma {:induction false} AtMostOneSubmission(rows: seq<Row>, tokens: set<string>, calls: seq<Call>)
    ensures OnceEach(AfterCalls(Desk(rows, tokens, []), calls))
    decreases |calls|
  {
    if calls != [] {
      AtMostOneSubmission(rows, tokens, calls[..|calls| - 1]);
      ApplyKeepsOnceEach(AfterCalls(Desk(rows, tokens, []), calls[..|calls| - 1]), calls[|calls| - 1]);
    }
  }

  /** A plan as `BuildPlan` makes them: every action under its own fingerprint. */
  predicate Genuine(p: Plan) { forall i | 0 <= i < |p.actions| :: p.actions[i].id == p.actions[i].details }

  /** What is submitted is what was reviewed: the payload of the one action of the plan that was named. */
  lemma SubmittedIsReviewed(d: Desk, call: Call)
    requires Genuine(call.plan) && Apply(d, call).0.sent != d.sent
    ensures Apply(d, call).0.sent == d.sent + [Sent(Strip(call.pos), call.action.payload)]
    ensures exists i :: 0 <= i < |call.plan.actions| && call.plan.actions[i].details == call.action
  {
    ApplyShape(d, call);
    var reviewed := Matching(call.plan.actions, Strip(call.pos), call.action);
    MatchingHas(call.plan.actions, Strip(call.pos), call.action);
    assert reviewed[0] in call.plan.actions;
    var i :| 0 <= i < |call.plan.actions| && call.plan.actions[i] == reviewed[0];
    assert call.plan.actions[i].details == call.action;
  }

  /** A confirmation token that was spent refuses every later call that offers it. */
  lemma {:induction false} TokensAreSpentOnce(d: Desk, call: Call, later: seq<Call>, again: Call)
    requires Selected(d, call).Some? && Strip(again.token) == Strip(call.token)
    ensures var e := AfterCalls(Apply(d, call).0, later);
      Strip(call.token) in e.tokens && Apply(e, again) == (e, Rejected)
    decreases |later|
  {
    if later != [] { TokensAreSpentOnce(d, call, later[..|later| - 1], again); }
  }
}
