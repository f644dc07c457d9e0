/** The lease as a step system: workers, the automatic-retry gate, crashes and any
    number of scanners, interleaved, at two granularities.  A scanner may close an
    attempt in one step, whoever owns it and whether or not the owner lives; and it
    may load the row in one step and write in a later one, with other steps between.
    The closers of a worker are always split in two.

    `called` and `wrote` are the truth about the outside world: the attempts whose
    exchange adapter was entered, and those for which a request reached the venue.
    The one thing assumed of the adapter is that it tells the truth in one
    direction: it reports a refusal, a proven no-contact or `not_started` only when
    nothing was written. */
module LeaseSystem {
  import opened Options
  import opened LeaseRows

  /** When a scanner that is split in two may load its row: at any time, only after the worker that owns
      the attempt has gone, or never, so that every scanner closes in one step. */
  datatype SplitScans = Anytime | AfterOwner | Never

  /** `automaticOnly`: after its first call a message is only ever retried through the gate.
      `keepsSettled`: nobody changes the decision of a message that has a succeeded attempt. */
  datatype Policy = Policy(splitScans: SplitScans, automaticOnly: bool, keepsSettled: bool)

  /** Where the owner of an attempt is: the adapter is entered at most once, right after the boundary. */
  datatype Stage = Fresh | AtBoundary | Called | Past

  datatype Worker =
    | Free
    | Reclaiming(reclaim: Flight)                        // the gate is finalizing a recorded outcome
    | Gated                                              // the gate let the call through
    | Saved(generation: nat)                             // a new pending generation is stored
    | Owns(id: nat, stage: Stage, closing: Option<Flight>)

  datatype Event =
    | AdapterCalled(id: nat)
    | ClosedBy(id: nat, closer: Closer, message: nat, generation: nat)

  datatype State = State(
    db: Db,
    workers: map<nat, Worker>,       // one worker at a time holds a message
    scans: multiset<Flight>,
    called: set<nat>,
    wrote: set<nat>,
    log: seq<Event>)

  datatype Action =
    | Call(m: nat)                                       // first call, or an automatic retry
    | ManualCall(m: nat)                                 // an operator's call, which skips the gate
    | ReclaimWrite(m: nat, now: int)
    | Save(m: nat, g: nat, samePayload: bool)
    | SaveFailed(m: nat, automation: Automation)
    | ClaimLease(m: nat, role: Role, token: nat, now: int, expiry: int)
    | StartSideEffect(m: nat, now: int)
    | CallAdapter(m: nat, writes: bool)
    | RecordEffect(m: nat, status: string, reason: Option<string>, effect: Effect, evidence: seq<EvidenceRef>)
    | CloseRead(m: nat, closer: Closer)
    | CloseWrite(m: nat, now: int)
    | Leave(m: nat)                                      // return, unhandled exception or crash
    | ScanRead(id: nat, closer: Closer)
    | ScanWrite(flight: Flight, now: int)
    | ScanNow(id: nat, closer: Closer, now: int)         // a scanner's whole visit in one step
    // recovery expiry, outside any run of the message
    | Overwrite(m: nat, agreement: Agreement, automation: Automation)
    | Beat(id: nat, token: nat, expiry: int)

  const EMPTY := State(Db(map[], []), map[], multiset{}, {}, {}, [])

  function WorkerOf(s: State, m: nat): Worker {
    if m in s.workers then s.workers[m] else Free
  }

  function SetWorker(s: State, m: nat, w: Worker): State {
    s.(workers := s.workers[m := w])
  }

  /** A decision as a terminal save leaves it, with its automation projected. */
  function Overwritten(agreement: Agreement, automation: Automation): Decision {
    Decision(Completed, None, agreement, automation)
  }

  predicate HasSucceeded(db: Db, m: nat) {
    exists i :: 0 <= i < |db.attempts| && db.attempts[i].message == m && db.attempts[i].status == Succeeded
  }

  /** The overwrite would change the decision of a message that has a succeeded attempt. */
  predicate Disturbs(db: Db, m: nat, agreement: Agreement, automation: Automation) {
    HasSucceeded(db, m) && !(m in db.decisions && db.decisions[m] == Overwritten(agreement, automation))
  }

  predicate Owned(s: State, id: nat)
    requires id < |s.db.attempts|
  {
    var w := WorkerOf(s, s.db.attempts[id].message);
    w.Owns? && w.id == id
  }

  function WriteStep(s: State, f: Flight, now: int): State {
    s.(db := Write(s.db, f, now),
       log := if WriteWins(s.db, f)
              then s.log + [ClosedBy(f.id, f.closer, f.seen.message, f.seen.generation)] else s.log)
  }

  function Next(p: Policy, s: State, a: Action): Option<State> {
    match a
    case Call(m) =>
      if WorkerOf(s, m) != Free then None
      else (match Gate(s.db, m)
            case Proceed => Some(SetWorker(s, m, Gated))
            case FinalizeFirst(i) =>
              Some(SetWorker(s, m, Reclaiming(Flight(i, Finalize, s.db.attempts[i]))))
            case _ => Some(s))
    case ManualCall(m) =>
      if p.automaticOnly || WorkerOf(s, m) != Free then None else Some(SetWorker(s, m, Gated))
    case ReclaimWrite(m, now) =>
      var w := WorkerOf(s, m);
      if !w.Reclaiming? then None
      else
        var s' := WriteStep(s, w.reclaim, now);
        Some(SetWorker(s', m, if Gate(s'.db, m) == Proceed then Gated else Free))
    case Save(m, g, samePayload) =>
      if WorkerOf(s, m) != Gated then None
      else if SaveRefused(s.db, m) then Some(SetWorker(s, m, Free))
      else Some(SetWorker(s.(db := SavePending(s.db, m, g, samePayload)), m, Saved(g)))
    case SaveFailed(m, automation) =>
      if WorkerOf(s, m) != Gated then None
      else Some(SetWorker(s.(db := SaveTerminal(s.db, m, automation)), m, Free))
    case ClaimLease(m, role, token, now, expiry) =>
      var w := WorkerOf(s, m);
      if !w.Saved? then None
      else
        var r := ClaimOutcome(s.db, m, w.generation, role, token, now, expiry);
        Some(SetWorker(s.(db := Claim(s.db, m, w.generation, role, token, now, expiry)), m,
                       if r.Granted? then Owns(r.id, Fresh, None) else Free))
    case StartSideEffect(m, now) =>
      var w := WorkerOf(s, m);
      if !(w.Owns? && w.stage == Fresh && w.closing == None && w.id < |s.db.attempts|) then None
      else
        var row := s.db.attempts[w.id];
        var started := CanStart(s.db, w.id, row.message, row.generation, row.token);
        Some(SetWorker(s.(db := Start(s.db, w.id, row.message, row.generation, row.token, now)), m,
                       w.(stage := if started then AtBoundary else Past)))
    case CallAdapter(m, writes) =>
      var w := WorkerOf(s, m);
      if !(w.Owns? && w.stage == AtBoundary && w.closing == None) then None
      else Some(SetWorker(s.(called := s.called + {w.id},
                             wrote := if writes then s.wrote + {w.id} else s.wrote,
                             log := s.log + [AdapterCalled(w.id)]),
                          m, w.(stage := Called)))
    case RecordEffect(m, status, reason, effect, evidence) =>
      var w := WorkerOf(s, m);
      if !(w.Owns? && w.closing == None && w.id < |s.db.attempts|) || (effect == NotStarted && w.id in s.wrote)
      then None
      else Some(SetWorker(s.(db := Record(s.db, w.id, s.db.attempts[w.id].token, status, reason, effect, evidence)),
                          m, w.(stage := Past)))
    case CloseRead(m, c) =>
      var w := WorkerOf(s, m);
      if !(w.Owns? && w.closing == None && w.id < |s.db.attempts|) || ((c.Refuse? || c.Preflight?) && w.id in s.wrote)
      then None
      else
        var row := s.db.attempts[w.id];
        Some(SetWorker(s, m, Owns(w.id, Past,
          if CanRead(s.db, w.id, row.token, c) then Some(Flight(w.id, c, row)) else None)))
    case CloseWrite(m, now) =>
      var w := WorkerOf(s, m);
      if !(w.Owns? && w.closing.Some?) then None
      else Some(SetWorker(WriteStep(s, w.closing.value, now), m, Owns(w.id, Past, None)))
    case Leave(m) => Some(SetWorker(s, m, Free))
    case ScanRead(id, c) =>
      if !(id < |s.db.attempts| && (c.FailSafe? || c.Freeze? || c.Finalize?)) then None
      else if p.splitScans == Never || (p.splitScans == AfterOwner && Owned(s, id)) then None
      else
        var row := s.db.attempts[id];
        if CanRead(s.db, id, row.token, c) then Some(s.(scans := s.scans + multiset{Flight(id, c, row)})) else Some(s)
    case ScanWrite(f, now) =>
      if f !in s.scans then None else Some(WriteStep(s.(scans := s.scans - multiset{f}), f, now))
    case ScanNow(id, c, now) =>
      if !(id < |s.db.attempts| && (c.FailSafe? || c.Freeze? || c.Finalize?)) then None
      else
        var row := s.db.attempts[id];
        if CanRead(s.db, id, row.token, c) then Some(WriteStep(s, Flight(id, c, row), now)) else Some(s)
    case Overwrite(m, agreement, automation) =>
      if WorkerOf(s, m) != Free || (p.keepsSettled && Disturbs(s.db, m, agreement, automation)) then None
      else if SaveRefused(s.db, m) then Some(s)
      else Some(SetWorker(s.(db := s.db.(decisions := s.db.decisions[m := Overwritten(agreement, automation)])), m,
        Free))
    case Beat(id, token, expiry) =>
      Some(s.(db := Heartbeat(s.db, id, token, expiry)))
  }

  function Run(p: Policy, s: State, trace: seq<Action>): Option<State> {
    if trace == [] then Some(s)
    else
      match Run(p, s, trace[..|trace| - 1])
      case None => None
      case Some(u) => Next(p, u, trace[|trace| - 1])
  }

  lemma RunSnoc(p: Policy, s: State, trace: seq<Action>, a: Action)
    ensures Run(p, s, trace + [a]) ==
            match Run(p, s, trace) { case None => None case Some(u) => Next(p, u, a) }
  {
    assert (trace + [a])[..|trace|] == trace;
  }
}
