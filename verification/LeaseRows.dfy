/** The two rows of the authoritative execution lease and every single-transaction
    operation on them, as functions from one database to the next.

    A recognition decision row and the execution attempt rows of a message move
    together: a claim takes the decision from pending to running and inserts an
    attempt; the five closers release (or freeze) the decision and put the attempt
    in a terminal status.  Attempt ids are positions in `attempts`: rows are only
    ever inserted, with increasing ids. */
module LeaseRows {
  import opened Options

  datatype DecisionStatus = ExecutionPending | ExecutionRunning | Completed | ExecutionUncertain

  datatype Agreement = PendingReview | ReviewDisabled | AuthoritativeFailed

  /** The automation projection carried by both rows. */
  datatype Automation = Automation(status: Option<string>, reason: Option<string>)

  datatype Decision = Decision(
    status: DecisionStatus,
    token: Option<nat>,          // the generation that is pending, running or frozen
    agreement: Agreement,
    automation: Automation)

  datatype AttemptStatus =
    | Claimed | Executing | OutcomeRecorded
    | Succeeded | FailedSafe | Uncertain | ClosedNoWrite | ClosedSettledBinding

  datatype Effect = NotStarted | ConfirmedApplied | ConfirmedRejected | OutcomeUnknown

  datatype EvidenceRef = ExchangeWrite | LedgerProof | RefusalProof

  datatype Attempt = Attempt(
    message: nat,
    generation: nat,
    token: nat,
    status: AttemptStatus,
    startedAt: Option<int>,
    effect: Option<Effect>,
    automation: Automation,
    evidence: Option<seq<EvidenceRef>>,
    noWriteNoted: bool,          // the "no exchange write tracked" mark in the error summary
    leaseExpiresAt: int,
    completedAt: Option<int>)

  datatype Db = Db(decisions: map<nat, Decision>, attempts: seq<Attempt>)

  datatype Role = Ingest | Web | Worker | All

  const NO_AUTOMATION := Automation(None, None)

  predicate Active(s: AttemptStatus) { s.Claimed? || s.Executing? || s.OutcomeRecorded? }

  /** Statuses that keep a retry out (the closeout terminals included). */
  predicate RetryBlocking(s: AttemptStatus) {
    s.Claimed? || s.Executing? || s.Uncertain? || s.ClosedNoWrite? || s.ClosedSettledBinding?
  }

  predicate Holds(db: Db, id: nat, token: nat) {
    id < |db.attempts| && db.attempts[id].token == token
  }

  predicate Running(db: Db, m: nat, g: nat) {
    m in db.decisions && db.decisions[m].status == ExecutionRunning && db.decisions[m].token == Some(g)
  }

  function SetRow(db: Db, id: nat, row: Attempt): Db
    requires id < |db.attempts|
  {
    db.(attempts := db.attempts[id := row])
  }

  // ---------------------------------------------------------------- claim

  datatype ClaimResult = Granted(id: nat) | RoleRefused | LeaseInvalid | StaleGeneration | DuplicateRow

  /** The two unique constraints of the attempt table. */
  predicate Insertable(db: Db, m: nat, g: nat, token: nat) {
    forall i | 0 <= i < |db.attempts| ::
      db.attempts[i].token != token && !(db.attempts[i].message == m && db.attempts[i].generation == g)
  }

  function NewAttempt(m: nat, g: nat, token: nat, expiry: int): Attempt {
    Attempt(m, g, token, Claimed, None, None, NO_AUTOMATION, None, false, expiry, None)
  }

  function ClaimOutcome(db: Db, m: nat, g: nat, role: Role, token: nat, now: int, expiry: int): ClaimResult {
    if role != Worker && role != All then RoleRefused
    else if expiry <= now then LeaseInvalid
    else if !(m in db.decisions && db.decisions[m].status == ExecutionPending && db.decisions[m].token == Some(g))
    then StaleGeneration
    else if !Insertable(db, m, g, token) then DuplicateRow
    else Granted(|db.attempts|)
  }

  /** Any refusal rolls the whole transaction back. */
  function Claim(db: Db, m: nat, g: nat, role: Role, token: nat, now: int, expiry: int): Db {
    if ClaimOutcome(db, m, g, role, token, now, expiry).Granted? then
      Db(db.decisions[m := db.decisions[m].(status := ExecutionRunning)],
         db.attempts + [NewAttempt(m, g, token, expiry)])
    else db
  }

  // ---------------------------------------------------------------- the active phase

  predicate CanHeartbeat(db: Db, id: nat, token: nat) {
    Holds(db, id, token) && Active(db.attempts[id].status)
  }

  function Heartbeat(db: Db, id: nat, token: nat, expiry: int): Db {
    if CanHeartbeat(db, id, token) then SetRow(db, id, db.attempts[id].(leaseExpiresAt := expiry)) else db
  }

  predicate CanStart(db: Db, id: nat, m: nat, g: nat, token: nat) {
    && Holds(db, id, token)
    && db.attempts[id].message == m
    && db.attempts[id].generation == g
    && db.attempts[id].status == Claimed
    && db.attempts[id].startedAt == None
  }

  function Start(db: Db, id: nat, m: nat, g: nat, token: nat, now: int): Db {
    if CanStart(db, id, m, g, token)
    then SetRow(db, id, db.attempts[id].(status := Executing, startedAt := Some(now)))
    else db
  }

  predicate CanRecord(db: Db, id: nat, token: nat, effect: Effect) {
    && effect != OutcomeUnknown
    && Holds(db, id, token)
    && (db.attempts[id].status == Executing || (db.attempts[id].status == Claimed && effect == NotStarted))
    && (effect != NotStarted ==> db.attempts[id].startedAt.Some?)
  }

  function StatusOr(s: string, fallback: string): string {
    if s == "" then fallback else s
  }

  function Record(db: Db, id: nat, token: nat, status: string, reason: Option<string>, effect: Effect,
                  evidence: seq<EvidenceRef>): Db {
    if CanRecord(db, id, token, effect) then
      SetRow(db, id, db.attempts[id].(
        status := OutcomeRecorded,
        effect := Some(effect),
        automation := Automation(Some(StatusOr(status, "unknown")), reason),
        evidence := Some(evidence)))
    else db
  }

  // ---------------------------------------------------------------- the five closers

  datatype Closer =
    | FailSafe
    | Refuse(status: string, reason: Option<string>, refs: seq<EvidenceRef>)
    | Preflight(code: string, refs: seq<EvidenceRef>)
    | Freeze(refs: seq<EvidenceRef>)
    | Finalize

  /** A refusal without evidence is a ValueError before any row is read. */
  predicate WellFormed(c: Closer) {
    (c.Refuse? || c.Preflight?) ==> c.refs != []
  }

  /** The test each closer makes, in Python, on the attempt row it has loaded. */
  predicate Guard(row: Attempt, c: Closer) {
    match c
    case FailSafe => row.status == Claimed && row.startedAt == None
    case Refuse(_, _, _) => row.status == Executing
    case Preflight(_, _) => row.status == Executing
    case Freeze(_) => row.status == Executing && row.startedAt.Some?
    case Finalize => row.status == OutcomeRecorded
  }

  function Terminal(c: Closer): AttemptStatus {
    match c
    case FailSafe => FailedSafe
    case Refuse(_, _, _) => FailedSafe
    case Preflight(_, _) => ClosedNoWrite
    case Freeze(_) => Uncertain
    case Finalize => Succeeded
  }

  /** The decision row after a won compare-and-set; `seen` is the attempt row as loaded. */
  function ClosedDecision(d: Decision, seen: Attempt, c: Closer): Decision {
    match c
    case FailSafe =>
      Decision(Completed, None, ReviewDisabled,
               Automation(Some("failed"), Some("authoritative_execution_abandoned_before_side_effect")))
    case Refuse(_, reason, _) => Decision(Completed, None, ReviewDisabled, Automation(Some("failed"), reason))
    case Preflight(code, _) => Decision(Completed, None, ReviewDisabled, Automation(Some("failed"), Some(code)))
    case Freeze(_) =>
      d.(status := ExecutionUncertain,
         automation := Automation(Some("uncertain"), Some("authoritative_execution_outcome_unknown")))
    case Finalize => Decision(Completed, None, ReviewDisabled, seen.automation)
  }

  /** The attempt row after the assignments of a closer; fields it does not assign keep their value. */
  function ClosedRow(row: Attempt, c: Closer, now: int): Attempt {
    match c
    case FailSafe => row.(status := FailedSafe, completedAt := Some(now))
    case Refuse(status, reason, refs) =>
      row.(status := FailedSafe, effect := Some(NotStarted),
           automation := Automation(Some(StatusOr(status, "failed")), reason),
           evidence := Some(refs), completedAt := Some(now))
    case Preflight(code, refs) =>
      row.(status := ClosedNoWrite, effect := Some(NotStarted),
           automation := Automation(Some("failed"), Some(code)),
           evidence := Some(refs), completedAt := Some(now))
    case Freeze(refs) =>
      row.(status := Uncertain, effect := Some(OutcomeUnknown), evidence := Some(refs),
           noWriteNoted := ExchangeWrite !in refs, completedAt := Some(now))
    case Finalize => row.(status := Succeeded, completedAt := Some(now))
  }

  /** What a closer carries from its read to its write: the row object it loaded. */
  datatype Flight = Flight(id: nat, closer: Closer, seen: Attempt)

  predicate CanRead(db: Db, id: nat, token: nat, c: Closer) {
    WellFormed(c) && Holds(db, id, token) && Guard(db.attempts[id], c)
  }

  /** The write half compares and sets only the decision row; the attempt row is assigned by id. */
  predicate WriteWins(db: Db, f: Flight) {
    f.id < |db.attempts| && Running(db, f.seen.message, f.seen.generation)
  }

  function Write(db: Db, f: Flight, now: int): Db {
    if WriteWins(db, f) then
      Db(db.decisions[f.seen.message := ClosedDecision(db.decisions[f.seen.message], f.seen, f.closer)],
         db.attempts[f.id := ClosedRow(db.attempts[f.id], f.closer, now)])
    else db
  }

  predicate CanClose(db: Db, id: nat, token: nat, c: Closer) {
    CanRead(db, id, token, c) && Running(db, db.attempts[id].message, db.attempts[id].generation)
  }

  /** A closer whose read and write are one atomic step. */
  function Close(db: Db, id: nat, token: nat, c: Closer, now: int): Db {
    if CanRead(db, id, token, c) then Write(db, Flight(id, c, db.attempts[id]), now) else db
  }

  // ---------------------------------------------------------------- saving a new decision

  predicate SaveRefused(db: Db, m: nat) {
    m in db.decisions && (db.decisions[m].status == ExecutionRunning || db.decisions[m].status == ExecutionUncertain)
  }

  /** A new pending generation; the review columns are kept when the same payload was already completed. */
  function SavePending(db: Db, m: nat, g: nat, samePayload: bool): Db {
    if SaveRefused(db, m) then db
    else
      var kept := m in db.decisions && samePayload && db.decisions[m].status == Completed;
      var agreement := if kept then db.decisions[m].agreement else PendingReview;
      db.(decisions := db.decisions[m := Decision(ExecutionPending, Some(g), agreement, NO_AUTOMATION)])
  }

  /** A failed authority: saved as completed, then its automation outcome is projected. */
  function SaveTerminal(db: Db, m: nat, automation: Automation): Db {
    if SaveRefused(db, m) then db
    else db.(decisions := db.decisions[m := Decision(Completed, None, AuthoritativeFailed, automation)])
  }

  // ---------------------------------------------------------------- the automatic-retry gate

  /** The greatest id among the attempts of one message. */
  function Newest(attempts: seq<Attempt>, m: nat): (r: Option<nat>)
    ensures r.Some? ==> r.value < |attempts| && attempts[r.value].message == m
    ensures forall i | 0 <= i < |attempts| :: attempts[i].message == m ==> r.Some? && i <= r.value
  {
    if attempts == [] then None
    else if attempts[|attempts| - 1].message == m then Some(|attempts| - 1)
    else Newest(attempts[..|attempts| - 1], m)
  }

  datatype Verdict = Blocked | FinalizeFirst(id: nat) | AlreadyDone | Proceed

  /** An automatic retry returns a durable success, is blocked, or may run recognition again. */
  function Gate(db: Db, m: nat): Verdict {
    match Newest(db.attempts, m)
    case None => Proceed
    case Some(i) =>
      var a := db.attempts[i];
      if RetryBlocking(a.status) then Blocked
      else if a.status == OutcomeRecorded then FinalizeFirst(i)
      else if || a.status != Succeeded
              || m !in db.decisions
              || db.decisions[m].status != Completed
              || db.decisions[m].agreement == AuthoritativeFailed
              || db.decisions[m].automation != a.automation
      then Proceed
      else AlreadyDone
  }

  /** The newest attempt of a message decides: an open or uncertain one blocks, and so do the closed ones;
      a recorded one is finalized first; a succeeded one is done while the decision shows its outcome. */
  lemma GateIs(db: Db, m: nat, i: nat)
    requires i < |db.attempts| && db.attempts[i].message == m
    requires forall k | i < k < |db.attempts| :: db.attempts[k].message != m
    ensures Gate(db, m) == Blocked <==>
            db.attempts[i].status in {Claimed, Executing, Uncertain, ClosedNoWrite, ClosedSettledBinding}
    ensures Gate(db, m) == FinalizeFirst(i) <==> db.attempts[i].status == OutcomeRecorded
    ensures Gate(db, m) == AlreadyDone <==>
            && db.attempts[i].status == Succeeded && m in db.decisions && db.decisions[m].status == Completed
            && db.decisions[m].agreement in {PendingReview, ReviewDisabled}
            && db.decisions[m].automation == db.attempts[i].automation
    ensures Gate(db, m) == Proceed <==>
            || db.attempts[i].status == FailedSafe
            || (db.attempts[i].status == Succeeded && Gate(db, m) != AlreadyDone)
  {
    var n := Newest(db.attempts, m).value;
    assert n == i by { assert !(n < i) && !(i < n); }
  }

  lemma GateIsOpen(db: Db, m: nat)
    requires forall a | a in db.attempts :: a.message != m
    ensures Gate(db, m) == Proceed
  {
    forall i | 0 <= i < |db.attempts| ensures db.attempts[i].message != m { assert db.attempts[i] in db.attempts; }
  }

  /** A save never touches a decision whose generation runs or is frozen, nor any attempt; otherwise it
      stores the new generation as pending, or the failure as completed. */
  lemma SavesAre(db: Db, m: nat, g: nat, samePayload: bool, automation: Automation)
    ensures m in db.decisions && db.decisions[m].status in {ExecutionRunning, ExecutionUncertain} ==>
              SavePending(db, m, g, samePayload) == db && SaveTerminal(db, m, automation) == db
    ensures (m in db.decisions ==> db.decisions[m].status in {ExecutionPending, Completed}) ==>
              && SaveTerminal(db, m, automation) ==
                 Db(db.decisions[m := Decision(Completed, None, AuthoritativeFailed, automation)], db.attempts)
              && SavePending(db, m, g, samePayload) ==
                 Db(db.decisions[m := Decision(ExecutionPending, Some(g),
                      if m in db.decisions && samePayload && db.decisions[m].status == Completed
                      then db.decisions[m].agreement else PendingReview, Automation(None, None))], db.attempts)
  {
  }
}
