/** What a repair plan reports of each leg, and what each way an apply can go leaves behind. */
module BackupStopAnswers {
  import opened Options
  import opened Texts
  import opened BackupStop

  // ---------------------------------------------------------------- what a plan reports

  /** A leg whose position may be looked at. */
  predicate Considered(c: Candidate) { Strip(c.rawPos) != "" && c.authoritative }

  /** The row that speaks for a position is the oldest of those that block it. */
  lemma {:induction false} ExistingIsOldest(rows: seq<Row>, pos: string) returns (i: nat)
    requires exists k :: 0 <= k < |rows| && rows[k].pos == pos && !rows[k].status.OtherStatus?
    ensures i < |rows| && ExistingBackup(rows, pos) == Some(rows[i])
    ensures rows[i].pos == pos && rows[i].status in {Submitting, PendingReadback, Active, UnknownOutcome}
    ensures forall k | 0 <= k < i :: rows[k].pos != pos || rows[k].status.OtherStatus?
  {
    if rows[0].pos == pos && Blocking(rows[0].status) {
      i := 0;
    } else {
      var k :| 0 <= k < |rows| && rows[k].pos == pos && !rows[k].status.OtherStatus?;
      assert rows[1..][k - 1] == rows[k];
      i := ExistingIsOldest(rows[1..], pos);
      assert forall j | 0 < j < i + 1 :: rows[j] == rows[1..][j - 1];
      i := i + 1;
    }
  }

  predicate PrimaryKnown(c: Candidate) { c.primary.Some? && Strip(c.primary.value.stop) != "" }

  predicate LegKnown(c: Candidate) {
    PrimaryKnown(c) && c.specKnown && c.snapshotOk && c.liveMatches == 1 && c.identityOk && c.payload.Some?
  }

  /** The one thing first found wrong with a leg, or in the way of it. */
  predicate ConflictOf(c: Candidate, rows: seq<Row>, reason: Reason) {
    var held := ExistingBackup(rows, Strip(c.rawPos));
    && Considered(c)
    && match reason
       case PrimaryNotVerified => !PrimaryKnown(c)
       case SpecUnavailable => PrimaryKnown(c) && !c.specKnown
       case SnapshotUnavailable => PrimaryKnown(c) && c.specKnown && !c.snapshotOk
       case PositionNotUnique => PrimaryKnown(c) && c.specKnown && c.snapshotOk && c.liveMatches != 1
       case IdentityMismatch =>
         PrimaryKnown(c) && c.specKnown && c.snapshotOk && c.liveMatches == 1 && !c.identityOk
       case Unsafe =>
         && PrimaryKnown(c) && c.specKnown && c.snapshotOk && c.liveMatches == 1 && c.identityOk
         && c.payload == None
       case Readback => LegKnown(c) && held.Some? && held.value.status in {Submitting, PendingReadback}
       case OutcomeUnknown => LegKnown(c) && held.Some? && held.value.status == UnknownOutcome
       case MissingOnExchange =>
         && LegKnown(c) && held.Some? && held.value.status == Active
         && (held.value.order == None || Strip(held.value.order.value) == "" || held.value.order.value !in c.readsBack)
       case SimilarUnscoped => LegKnown(c) && held == None && c.similar
  }

  /** The leg already has its backup stop, and the exchange shows it. */
  predicate CoveredBy(c: Candidate, rows: seq<Row>, order: string) {
    var held := ExistingBackup(rows, Strip(c.rawPos));
    && Considered(c) && LegKnown(c) && held.Some? && held.value.status == Active
    && held.value.order == Some(order) && Strip(order) != "" && order in c.readsBack
  }

  /** What the database says of a considered leg. */
  function Remembered(c: Candidate, rows: seq<Row>): Evidence {
    var pos := Strip(c.rawPos);
    match ExistingBackup(rows, pos)
    case None => Stored(c.binding, c.leg, pos, if c.primary.Some? then c.primary.value.order else "", "", None)
    case Some(held) =>
      Stored(c.binding, c.leg, pos, if c.primary.Some? then c.primary.value.order else "",
             if held.order.Some? then held.order.value else "", Some(held.status))
  }

  lemma Decided(c: Candidate, rows: seq<Row>)
    requires Considered(c)
    ensures var choice := Decide(c, Strip(c.rawPos), ExistingBackup(rows, Strip(c.rawPos)));
      && (choice.Refuse? ==> ConflictOf(c, rows, choice.reason))
      && (choice.Cover? ==> CoveredBy(c, rows, choice.order))
      && (choice.Act? ==> Plannable(c, rows) && Action(choice.details, choice.details) == ActionFor(c))
  {
    assert Strip("") == "";
  }

  /** Conflicts, cover and action exclude one another, and each conflict every other. */
  lemma OneAnswer(c: Candidate, rows: seq<Row>, reason: Reason, other: Reason, order: string)
    ensures ConflictOf(c, rows, reason) && ConflictOf(c, rows, other) ==> reason == other
    ensures !(ConflictOf(c, rows, reason) && CoveredBy(c, rows, order))
    ensures !(Plannable(c, rows) && (ConflictOf(c, rows, reason) || CoveredBy(c, rows, order)))
  {
  }

  ghost predicate Reported(c: Candidate, rows: seq<Row>) {
    || Plannable(c, rows)
    || (exists reason :: ConflictOf(c, rows, reason))
    || (exists order :: CoveredBy(c, rows, order))
  }

  /** How one more leg extends each part of a plan, in the order of the legs: a considered one is remembered,
      and reported as exactly one of a conflict, a cover and an action. */
  lemma PlanOneMore(world: World, rows: seq<Row>, c: Candidate, reason: Reason, order: string)
    ensures BuildPlan([], rows) == Plan([], [], Fingerprint([], [], [], []))
    ensures var before, after := BuildPlan(world, rows), BuildPlan(world + [c], rows);
      && after.fingerprint == Fingerprint(after.actions, after.conflicts, after.fingerprint.database,
                                          after.fingerprint.exchange)
      && (!Considered(c) ==> after == before)
      && (Considered(c) ==>
            Reported(c, rows) && after.fingerprint.database == before.fingerprint.database + [Remembered(c, rows)])
      && (ConflictOf(c, rows, reason) ==>
            && after.conflicts == before.conflicts + [Conflict(Strip(c.rawPos), reason)]
            && after.actions == before.actions && after.fingerprint.exchange == before.fingerprint.exchange)
      && (CoveredBy(c, rows, order) ==>
            && after.conflicts == before.conflicts && after.actions == before.actions
            && after.fingerprint.exchange == before.fingerprint.exchange + [Covered(Strip(c.rawPos), order)])
      && (Plannable(c, rows) ==>
            && after.conflicts == before.conflicts && after.actions == before.actions + [ActionFor(c)]
            && after.fingerprint.exchange == before.fingerprint.exchange +
                 [Live(Strip(c.rawPos), c.market.size, c.market.liquidation)])
  {
    Grows(world, rows, c);
    var done := Survey(world, rows);
    if ConflictOf(c, rows, reason) { ConflictAdds(done, c, rows, reason); }
    if CoveredBy(c, rows, order) { CoverAdds(done, c, rows, order); }
    if Plannable(c, rows) { ActionAdds(done, c, rows); }
    if Considered(c) { Decided(c, rows); }
  }

  lemma Grows(world: World, rows: seq<Row>, c: Candidate)
    ensures Survey(world + [c], rows) == AddCandidate(Survey(world, rows), c, rows)
  {
    assert (world + [c])[..|world|] == world;
  }

  lemma ConflictAdds(done: Fingerprint, c: Candidate, rows: seq<Row>, reason: Reason)
    requires ConflictOf(c, rows, reason)
    ensures AddCandidate(done, c, rows) ==
            Fingerprint(done.actions, done.conflicts + [Conflict(Strip(c.rawPos), reason)],
                        done.database + [Remembered(c, rows)], done.exchange)
  {
  }

  lemma CoverAdds(done: Fingerprint, c: Candidate, rows: seq<Row>, order: string)
    requires CoveredBy(c, rows, order)
    ensures AddCandidate(done, c, rows) ==
            Fingerprint(done.actions, done.conflicts, done.database + [Remembered(c, rows)],
                        done.exchange + [Covered(Strip(c.rawPos), order)])
  {
  }

  lemma ActionAdds(done: Fingerprint, c: Candidate, rows: seq<Row>)
    requires Plannable(c, rows)
    ensures AddCandidate(done, c, rows) ==
            Fingerprint(done.actions + [ActionFor(c)], done.conflicts, done.database + [Remembered(c, rows)],
                        done.exchange + [Live(Strip(c.rawPos), c.market.size, c.market.liquidation)])
  {
  }

  // ---------------------------------------------------------------- which call may go on

  /** How many actions of a list are for this position, under this fingerprint. */
  ghost function HowMany(actions: seq<Action>, pos: string, id: Details): nat {
    if actions == [] then 0
    else (if actions[0].details.pos == pos && actions[0].id == id then 1 else 0) + HowMany(actions[1..], pos, id)
  }

  lemma {:induction false} MatchingCounts(actions: seq<Action>, pos: string, id: Details)
    ensures |Matching(actions, pos, id)| == HowMany(actions, pos, id)
  {
    if actions != [] { MatchingCounts(actions[1..], pos, id); }
  }

  /** A call goes past its checks exactly when it names a position and a token of eight characters or more
      that is not spent, expects the reviewed plan, that plan is the current one, and it names exactly one
      action of each. */
  lemma SelectedIff(d: Desk, call: Call)
    ensures Selected(d, call).Some? <==>
            && Strip(call.pos) != "" && 8 <= |Strip(call.token)| && Strip(call.token) !in d.tokens
            && call.expected == call.plan.fingerprint && BuildPlan(call.world, d.rows).fingerprint == call.expected
            && HowMany(call.plan.actions, Strip(call.pos), call.action) == 1
            && HowMany(BuildPlan(call.world, d.rows).actions, Strip(call.pos), call.action) == 1
  {
    MatchingCounts(call.plan.actions, Strip(call.pos), call.action);
    MatchingCounts(BuildPlan(call.world, d.rows).actions, Strip(call.pos), call.action);
  }

  // ---------------------------------------------------------------- how far it goes

  /** What the desk holds after a call: the token spent, one row more, and perhaps one submission more. */
  ghost predicate Left(d: Desk, call: Call, after: Desk, status: Status, order: Option<string>, sent: bool) {
    && after.tokens == d.tokens + {Strip(call.token)}
    && after.rows == d.rows + [Row(Strip(call.pos), call.action.payload, status, order)]
    && after.sent == if sent then d.sent + [Sent(Strip(call.pos), call.action.payload)] else d.sent
  }

  lemma PositionIsFree(d: Desk, call: Call)
    requires Selected(d, call).Some?
    ensures PositionFree(d.rows, Strip(call.pos))
  {
    SelectedIs(d, call);
  }

  lemma Reserved(d: Desk, call: Call)
    requires Selected(d, call).Some? && call.fate != DiesAfterToken
    ensures var held := Desk(d.rows + [Row(Strip(call.pos), call.action.payload, Submitting, None)],
                             d.tokens + {Strip(call.token)}, d.sent);
      Apply(d, call) == Submit(held, |d.rows|, Action(call.action, call.action), call.fate)
  {
    SelectedIs(d, call);
    PositionIsFree(d, call);
  }

  /** A call that is refused changes nothing.  One that goes on spends its token first, then reserves a row,
      and its row says how it went: still submitting wherever it died or the order id is taken, unknown
      wherever the exchange raised, waiting for the read-back where nothing was confirmed, and active with
      the confirmed order where it was. */
  lemma ApplyLeaves(d: Desk, call: Call)
    ensures var (after, outcome) := Apply(d, call);
      if Selected(d, call) == None then after == d && outcome == Rejected
      else
        match call.fate
        case DiesAfterToken =>
          outcome == Crashed && after == Desk(d.rows, d.tokens + {Strip(call.token)}, d.sent)
        case DiesAfterReserve => outcome == Crashed && Left(d, call, after, Submitting, None, false)
        case RaisesUnsent => outcome == Marked(UnknownOutcome) && Left(d, call, after, UnknownOutcome, None, false)
        case DiesAfterSending => outcome == Crashed && Left(d, call, after, Submitting, None, true)
        case RaisesSent => outcome == Marked(UnknownOutcome) && Left(d, call, after, UnknownOutcome, None, true)
        case Answers(NotConfirmed) =>
          outcome == Marked(PendingReadback) && Left(d, call, after, PendingReadback, None, true)
        case Answers(DiesBeforeMark) => outcome == Crashed && Left(d, call, after, Submitting, None, true)
        case Answers(Confirmed(order)) =>
          if exists i :: 0 <= i < |d.rows| && d.rows[i].order == Some(order)
          then outcome == Crashed && Left(d, call, after, Submitting, None, true)
          else outcome == Marked(Active) && Left(d, call, after, Active, Some(order), true)
  {
    if Selected(d, call).Some? {
      SelectedIs(d, call);
      if call.fate != DiesAfterToken {
        Reserved(d, call);
        var rows := d.rows + [Row(Strip(call.pos), call.action.payload, Submitting, None)];
        assert forall status, order ::
          rows[|d.rows| := Row(Strip(call.pos), call.action.payload, status, order)] ==
          d.rows + [Row(Strip(call.pos), call.action.payload, status, order)];
        match call.fate
        case Answers(Confirmed(order)) =>
          if i :| 0 <= i < |d.rows| && d.rows[i].order == Some(order) { assert rows[i].order == Some(order); }
        case _ =>
      }
    }
  }
}
