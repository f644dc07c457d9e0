/** The leased runner: one claimed attempt driven to a terminal status, with the
    exception handler that classifies whatever the body left behind.  The calls into
    recognition, the exchange adapter and the management ledger are a script; the
    database is the store, with no crash and no other writer in between. */
module LeasedRunner {
  import opened Options
  import opened LeaseRows
  import opened AttemptStore

  datatype Answer<+T> = Returned(value: T) | Raised

  datatype Barrier = Open | Block(reason: string) | Hold(reason: string)

  datatype BoundaryStatus = Complete | SafeFailure | UnknownOutcome

  datatype Boundary = Boundary(
    status: BoundaryStatus, effect: Effect, rawStatus: string, reasonCode: Option<string>,
    evidence: seq<EvidenceRef>, result: Automation)

  /** What the constructor of an execution boundary outcome enforces. */
  predicate Constructible(b: Boundary) {
    && (b.effect == OutcomeUnknown <==> b.status == UnknownOutcome)
    && (b.effect == ConfirmedApplied || b.effect == ConfirmedRejected ==> b.evidence != [])
  }

  datatype Script = Script(
    apply: Answer<Option<string>>,               // the reason a lifecycle event was not applied, if any
    barrier: Answer<Barrier>,
    terminalNoop: bool,
    hasCandidate: Answer<bool>,
    executor: Option<Answer<Option<Boundary>>>,  // no executor / raises / not an outcome / an outcome
    ledger: Answer<Option<(string, seq<EvidenceRef>)>>,
    publish: Answer<()>)                         // rebuilding the assessment after the finalization

  predicate Sound(s: Script) {
    s.executor.Some? && s.executor.value.Returned? && s.executor.value.value.Some? ==>
      Constructible(s.executor.value.value.value)
  }

  datatype Failure = FromCall | OutcomeMissing | OutcomeIsUnknown | EvidenceMissing | CasFailed

  datatype Exit = Done | Error(failure: Failure)

  /** The attempt is freshly claimed under a running decision, as the claim leaves it. */
  ghost predicate Leased(db: Db, id: nat, m: nat, g: nat, token: nat) {
    && id < |db.attempts| && Running(db, m, g)
    && db.attempts[id].message == m && db.attempts[id].generation == g && db.attempts[id].token == token
    && db.attempts[id].status == Claimed && db.attempts[id].startedAt == None && db.attempts[id].effect == None
  }

  /** Only this attempt and this decision have changed, and the decision was released with it. */
  ghost predicate OnlyThisLease(db: Db, db': Db, id: nat, m: nat) {
    && |db'.attempts| == |db.attempts| && id < |db.attempts|
    && (forall i | 0 <= i < |db.attempts| && i != id :: db'.attempts[i] == db.attempts[i])
    && m in db'.decisions && db'.decisions.Keys == db.decisions.Keys
    && (forall k | k in db.decisions && k != m :: db'.decisions[k] == db.decisions[k])
  }

  ghost predicate StillRunning(db: Db, id: nat, m: nat, g: nat, token: nat) {
    && id < |db.attempts| && Running(db, m, g)
    && db.attempts[id].message == m && db.attempts[id].generation == g && db.attempts[id].token == token
    && (db.attempts[id].status == Claimed ==> db.attempts[id].startedAt == None)
    && (db.attempts[id].status == Executing ==> db.attempts[id].startedAt.Some?)
  }

  function SkippedWith(status: string, reason: string): Boundary {
    Boundary(Complete, NotStarted, status, Some(reason), [], Automation(Some(status), Some(reason)))
  }

  /** Both rows of a run that ended well: the attempt with its effect, and the released decision
      showing the same outcome. */
  ghost predicate Shows(row: Attempt, d: Decision, effect: Effect, status: string, reason: Option<string>) {
    && row.status == Succeeded && row.effect == Some(effect)
    && row.automation == Automation(Some(status), reason)
    && d == Decision(Completed, None, ReviewDisabled, Automation(Some(status), reason))
  }

  /** Both rows of a run that was proved or kept away from the exchange. */
  ghost predicate Failed(row: Attempt, d: Decision, status: AttemptStatus, reason: Option<string>) {
    && row.status == status
    && d == Decision(Completed, None, ReviewDisabled, Automation(Some("failed"), reason))
  }

  /** Both rows of a run whose outcome nobody knows: the generation stays with the decision. */
  ghost predicate Frozen(row: Attempt, d: Decision, g: nat) {
    && row.status == Uncertain && row.effect == Some(OutcomeUnknown)
    && d.status == ExecutionUncertain && d.token == Some(g)
    && d.automation == Automation(Some("uncertain"), Some("authoritative_execution_outcome_unknown"))
  }

  /** The boundary section: which outcome there is, having crossed into the adapter or not. */
  method Observe(store: ExecutionStore, id: nat, m: nat, g: nat, token: nat, s: Script, now: int)
    returns (r: Answer<Boundary>, called: bool, failure: Failure)
    requires Leased(store.View(), id, m, g, token) && Sound(s)
    modifies store
    ensures store.decisions == old(store.decisions)
    // the adapter is called exactly when every branch before it lets the message through
    ensures called <==>
              && s.apply == Returned(None) && s.barrier == Returned(Open) && !s.terminalNoop
              && s.hasCandidate == Returned(true) && s.executor.Some?
    ensures !called ==> store.View() == old(store.View())
    ensures called ==>
              && store.attempts == old(store.attempts)[
                   id := old(store.attempts[id]).(status := Executing, startedAt := Some(now))]
    // the branches that end before it, in the order of the code
    ensures s.apply.Raised? || s.barrier.Raised? ==> r == Raised
    ensures s.apply.Returned? && s.barrier.Returned? ==>
              match s.barrier.value
              case Block(reason) => r == Returned(SkippedWith("blocked", reason))
              case Hold(reason) => r == Returned(SkippedWith("deferred", reason))
              case Open =>
                && (s.terminalNoop ==> r == Returned(SkippedWith("skipped", "target_terminal_noop")))
                && (!s.terminalNoop && s.apply.value.Some? ==>
                      r == Returned(SkippedWith("skipped", s.apply.value.value)))
                && (!s.terminalNoop && s.apply.value == None ==>
                      && (s.hasCandidate.Raised? ==> r == Raised)
                      && (s.hasCandidate == Returned(false) ==>
                            r == Returned(SkippedWith("skipped", "mimo_no_action")))
                      && (s.hasCandidate == Returned(true) && s.executor == None ==>
                            r == Returned(SkippedWith("skipped", "auto_trade_not_configured"))))
    ensures called ==>
              match s.executor.value
              case Raised => r == Raised && failure == FromCall
              case Returned(None) => r == Raised && failure == OutcomeMissing
              case Returned(Some(b)) => r == Returned(b) && Constructible(b)
    ensures failure != CasFailed
    ensures r.Returned? ==> Constructible(r.value)
    ensures r.Returned? && (r.value.effect != NotStarted || r.value.status == SafeFailure) ==> called
  {
    called, failure := false, FromCall;
    if s.apply.Raised? || s.barrier.Raised? {
      return Raised, called, failure;
    }
    match s.barrier.value {
      case Block(reason) => r := Returned(SkippedWith("blocked", reason));
      case Hold(reason) => r := Returned(SkippedWith("deferred", reason));
      case Open =>
        if s.terminalNoop {
          r := Returned(SkippedWith("skipped", "target_terminal_noop"));
        } else if s.apply.value.Some? {
          r := Returned(SkippedWith("skipped", s.apply.value.value));
        } else if s.hasCandidate.Raised? {
          r := Raised;
        } else if !s.hasCandidate.value {
          r := Returned(SkippedWith("skipped", "mimo_no_action"));
        } else if s.executor == None {
          r := Returned(SkippedWith("skipped", "auto_trade_not_configured"));
        } else {
          var won := store.MarkSideEffectStarted(id, m, g, token, now);
          if !won {
            return Raised, called, CasFailed;
          }
          called := true;
          if s.executor.value.Raised? {
            r := Raised;
          } else if s.executor.value.value == None {
            r, failure := Raised, OutcomeMissing;
          } else {
            r := Returned(s.executor.value.value.value);
          }
        }
    }
  }

  /** Closing on an unknown outcome: the ledger may prove that nothing was written, else the row is frozen. */
  method SettleUnknown(store: ExecutionStore, id: nat, m: nat, g: nat, token: nat, s: Script, b: Boundary, now: int)
    returns (exit: Exit)
    requires StillRunning(store.View(), id, m, g, token) && store.attempts[id].status == Executing
    requires b.effect == OutcomeUnknown
    modifies store
    ensures OnlyThisLease(old(store.View()), store.View(), id, m)
    ensures store.attempts[id].startedAt == old(store.attempts[id].startedAt)
    ensures ExchangeWrite !in b.evidence && s.ledger.Raised? ==>
              exit == Error(FromCall) && store.View() == old(store.View())
    ensures ExchangeWrite !in b.evidence && s.ledger.Returned? && s.ledger.value.Some? ==>
              if s.ledger.value.value.1 == [] then exit == Error(EvidenceMissing) && store.View() == old(store.View())
              else
                && exit == Done
                && Failed(store.attempts[id], store.decisions[m], ClosedNoWrite, Some(s.ledger.value.value.0))
    ensures ExchangeWrite in b.evidence || s.ledger == Returned(None) ==>
              && exit == Error(OutcomeIsUnknown) && Frozen(store.attempts[id], store.decisions[m], g)
              && store.attempts[id].evidence == Some(b.evidence)
  {
    if ExchangeWrite !in b.evidence {
      if s.ledger.Raised? {
        return Error(FromCall);
      }
      if s.ledger.value.Some? {
        var (code, refs) := s.ledger.value.value;
        var done := store.RecordPreflightRefusal(id, token, code, refs, now);
        return if done == Changed then Done else if done == Invalid then Error(EvidenceMissing) else Error(CasFailed);
      }
    }
    var frozen := store.MarkUncertain(id, token, b.evidence, now);
    exit := if frozen then Error(OutcomeIsUnknown) else Error(CasFailed);
  }

  /** Closing on the observed outcome: refusal, ledger-proved refusal, freeze, or record and finalize. */
  method Settle(store: ExecutionStore, id: nat, m: nat, g: nat, token: nat, s: Script, b: Boundary, now: int)
    returns (exit: Exit)
    requires StillRunning(store.View(), id, m, g, token)
    requires Constructible(b)
    requires store.attempts[id].status == Claimed || store.attempts[id].status == Executing
    requires b.effect != NotStarted || b.status == SafeFailure ==> store.attempts[id].status == Executing
    modifies store
    ensures OnlyThisLease(old(store.View()), store.View(), id, m)
    ensures store.attempts[id].startedAt == old(store.attempts[id].startedAt)
    // a refusal that says why
    ensures b.status == SafeFailure && b.evidence != [] ==>
              && exit == Done && store.attempts[id].evidence == Some(b.evidence)
              && store.attempts[id].effect == Some(NotStarted)
              && Failed(store.attempts[id], store.decisions[m], FailedSafe,
                   if b.result.reason.Some? then b.result.reason else Some(b.rawStatus))
    // an unknown outcome: asked of the ledger unless a write was tracked
    ensures b.effect == OutcomeUnknown && ExchangeWrite !in b.evidence && s.ledger.Raised? ==>
              exit == Error(FromCall) && store.View() == old(store.View())
    ensures b.effect == OutcomeUnknown && ExchangeWrite !in b.evidence && s.ledger.Returned? && s.ledger.value.Some? ==>
              if s.ledger.value.value.1 == [] then exit == Error(EvidenceMissing) && store.View() == old(store.View())
              else
                && exit == Done
                && Failed(store.attempts[id], store.decisions[m], ClosedNoWrite, Some(s.ledger.value.value.0))
    ensures b.effect == OutcomeUnknown && (ExchangeWrite in b.evidence || s.ledger == Returned(None)) ==>
              && exit == Error(OutcomeIsUnknown) && Frozen(store.attempts[id], store.decisions[m], g)
              && store.attempts[id].evidence == Some(b.evidence)
    // every other outcome is recorded and published as it is
    ensures !(b.status == SafeFailure && b.evidence != []) && b.effect != OutcomeUnknown ==>
              && exit == (if s.publish.Raised? then Error(FromCall) else Done)
              && Shows(store.attempts[id], store.decisions[m], b.effect,
                   if b.result.status.None? || b.result.status.value == "" then "unknown" else b.result.status.value,
                   b.result.reason)
  {
    if b.status == SafeFailure && b.evidence != [] {
      var reason := if b.result.reason.Some? then b.result.reason else Some(b.rawStatus);
      var status := if b.result.status.Some? then b.result.status.value else "failed";
      var done := store.RecordDeterministicRefusal(id, token, status, reason, b.evidence, now);
      return if done == Changed then Done else Error(CasFailed);
    }
    if b.effect == OutcomeUnknown {
      exit := SettleUnknown(store, id, m, g, token, s, b, now);
      return;
    }
    var status := if b.result.status.Some? then b.result.status.value else "unknown";
    var recorded := store.RecordOutcome(id, token, status, b.result.reason, b.effect, b.evidence);
    if recorded != Changed {
      return Error(CasFailed);
    }
    var decision := store.FinalizeRecorded(id, token, now);
    if decision == None {
      return Error(CasFailed);
    }
    exit := if s.publish.Raised? then Error(FromCall) else Done;
  }

  /** The exception handler: it closes what the failed run left open, by the status it finds. */
  method Classify(store: ExecutionStore, id: nat, m: nat, g: nat, token: nat, now: int)
    returns (seen: AttemptStatus, classified: bool)
    requires id < |store.attempts| && store.attempts[id].status in {Claimed, Executing, Uncertain, Succeeded}
    requires m in store.decisions
    requires store.attempts[id].status in {Claimed, Executing} ==> StillRunning(store.View(), id, m, g, token)
    modifies store
    ensures OnlyThisLease(old(store.View()), store.View(), id, m)
    ensures classified && seen == old(store.attempts[id].status)
    ensures store.attempts[id].startedAt == old(store.attempts[id].startedAt)
    ensures seen == Claimed ==>
              Failed(store.attempts[id], store.decisions[m], FailedSafe,
                Some("authoritative_execution_abandoned_before_side_effect"))
    ensures seen == Executing ==>
              Frozen(store.attempts[id], store.decisions[m], g) && store.attempts[id].evidence == Some([])
    ensures seen == Uncertain || seen == Succeeded ==> store.View() == old(store.View())
  {
    seen := store.attempts[id].status;
    classified := seen == FailedSafe || seen == Uncertain || seen == Succeeded;
    if seen == Claimed {
      classified := store.FailSafeAttempt(id, token, now);
    } else if seen == Executing {
      classified := store.MarkUncertain(id, token, [], now);
    } else if seen == OutcomeRecorded {
      classified := true;
    }
  }

  /** From the observed outcome to the end: settled on, or left to the handler. */
  method Conclude(store: ExecutionStore, id: nat, m: nat, g: nat, token: nat, s: Script, r: Answer<Boundary>,
                  failure: Failure, now: int) returns (exit: Exit, seen: Option<AttemptStatus>, classified: bool)
    requires StillRunning(store.View(), id, m, g, token) && failure != CasFailed
    requires store.attempts[id].status == Claimed || store.attempts[id].status == Executing
    requires r.Returned? ==> Constructible(r.value)
    requires r.Returned? && (r.value.effect != NotStarted || r.value.status == SafeFailure) ==>
               store.attempts[id].status == Executing
    modifies store
    ensures OnlyThisLease(old(store.View()), store.View(), id, m)
    ensures store.attempts[id].startedAt == old(store.attempts[id].startedAt)
    ensures exit != Error(CasFailed) && classified
    ensures seen.Some? <==> exit.Error?
    ensures r.Raised? ==>
              && exit == Error(failure) && seen == Some(old(store.attempts[id].status))
              && if seen == Some(Executing) then Frozen(store.attempts[id], store.decisions[m], g)
                 else Failed(store.attempts[id], store.decisions[m], FailedSafe,
                        Some("authoritative_execution_abandoned_before_side_effect"))
    ensures r.Returned? ==>
              var b := r.value;
              if b.status == SafeFailure && b.evidence != [] then
                && exit == Done && store.attempts[id].evidence == Some(b.evidence)
                && Failed(store.attempts[id], store.decisions[m], FailedSafe,
                     if b.result.reason.Some? then b.result.reason else Some(b.rawStatus))
              else if b.effect != OutcomeUnknown then
                && exit == (if s.publish.Raised? then Error(FromCall) else Done)
                && Shows(store.attempts[id], store.decisions[m], b.effect,
                     if b.result.status.None? || b.result.status.value == "" then "unknown" else b.result.status.value,
                     b.result.reason)
              else if ExchangeWrite !in b.evidence && s.ledger.Returned? && s.ledger.value.Some? &&
                      s.ledger.value.value.1 != [] then
                && exit == Done
                && Failed(store.attempts[id], store.decisions[m], ClosedNoWrite, Some(s.ledger.value.value.0))
              else
                exit.Error? && Frozen(store.attempts[id], store.decisions[m], g)
  {
    seen, classified := None, true;
    if r.Returned? {
      exit := Settle(store, id, m, g, token, s, r.value, now);
    } else {
      exit := Error(failure);
    }
    if exit.Error? {
      var status, ok := Classify(store, id, m, g, token, now);
      seen, classified := Some(status), ok;
    }
  }

  /** Every run of one claimed generation ends terminal, and the status says how far it came.
      `seen` is the status the exception handler found, if it was entered. */
  method RunLeased(store: ExecutionStore, id: nat, m: nat, g: nat, token: nat, s: Script, now: int)
    returns (exit: Exit, called: bool, seen: Option<AttemptStatus>, classified: bool)
    requires Leased(store.View(), id, m, g, token) && Sound(s)
    modifies store
    ensures OnlyThisLease(old(store.View()), store.View(), id, m)
    ensures store.attempts[id].status in {Succeeded, FailedSafe, ClosedNoWrite, Uncertain}
    // no compare-and-set is ever lost, and the handler classifies everything it sees
    ensures exit != Error(CasFailed) && classified
    ensures seen.Some? <==> exit.Error?
    // the adapter is called only after the side-effect mark, and leaves a row that says so
    ensures called <==>
              && s.apply == Returned(None) && s.barrier == Returned(Open) && !s.terminalNoop
              && s.hasCandidate == Returned(true) && s.executor.Some?
    ensures store.attempts[id].startedAt == if called then Some(now) else None
    // before the adapter, in the order of the code: a call that raises abandons the generation,
    // and every other branch publishes why nothing was sent
    ensures s.apply.Raised? || s.barrier.Raised? ==>
              seen == Some(Claimed) && Failed(store.attempts[id], store.decisions[m], FailedSafe,
                                         Some("authoritative_execution_abandoned_before_side_effect"))
    ensures s.apply.Returned? && s.barrier.Returned? ==>
              var row, d := store.attempts[id], store.decisions[m];
              match s.barrier.value
              case Block(reason) => Shows(row, d, NotStarted, "blocked", Some(reason))
              case Hold(reason) => Shows(row, d, NotStarted, "deferred", Some(reason))
              case Open =>
                && (s.terminalNoop ==> Shows(row, d, NotStarted, "skipped", Some("target_terminal_noop")))
                && (!s.terminalNoop && s.apply.value.Some? ==> Shows(row, d, NotStarted, "skipped", s.apply.value))
                && (!s.terminalNoop && s.apply.value == None ==>
                      && (s.hasCandidate.Raised? ==>
                            && seen == Some(Claimed)
                            && Failed(row, d, FailedSafe, Some("authoritative_execution_abandoned_before_side_effect")))
                      && (s.hasCandidate == Returned(false) ==>
                            Shows(row, d, NotStarted, "skipped", Some("mimo_no_action")))
                      && (s.hasCandidate == Returned(true) && s.executor == None ==>
                            Shows(row, d, NotStarted, "skipped", Some("auto_trade_not_configured"))))
    ensures !called && store.attempts[id].status == Succeeded ==>
              exit == if s.publish.Raised? then Error(FromCall) else Done
    // past the adapter: an answer that is no outcome freezes, an outcome is settled as it says
    ensures called && (s.executor.value.Raised? || s.executor.value.value == None) ==>
              seen == Some(Executing) && Frozen(store.attempts[id], store.decisions[m], g)
    ensures called && s.executor.value.Returned? && s.executor.value.value.Some? ==>
              var b := s.executor.value.value.value;
              if b.status == SafeFailure && b.evidence != [] then
                && exit == Done && store.attempts[id].evidence == Some(b.evidence)
                && Failed(store.attempts[id], store.decisions[m], FailedSafe,
                     if b.result.reason.Some? then b.result.reason else Some(b.rawStatus))
              else if b.effect != OutcomeUnknown then
                && exit == (if s.publish.Raised? then Error(FromCall) else Done)
                && Shows(store.attempts[id], store.decisions[m], b.effect,
                     if b.result.status.None? || b.result.status.value == "" then "unknown" else b.result.status.value,
                     b.result.reason)
              else if ExchangeWrite !in b.evidence && s.ledger.Returned? && s.ledger.value.Some? &&
                      s.ledger.value.value.1 != [] then
                && exit == Done
                && Failed(store.attempts[id], store.decisions[m], ClosedNoWrite, Some(s.ledger.value.value.0))
              else
                exit.Error? && Frozen(store.attempts[id], store.decisions[m], g)
  {
    var r, crossed, failure := Observe(store, id, m, g, token, s, now);
    called := crossed;
    exit, seen, classified := Conclude(store, id, m, g, token, s, r, failure, now);
  }
}
