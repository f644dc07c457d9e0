/** Whole runs of a message that is only ever retried through the gate and whose settled decision
    nobody overwrites: at most one of its generations reaches the venue, and a settled message
    never runs again.  Scanners close in one step at any time, or wait for the owner to go.
    Concrete runs show that none of the three conditions can be dropped. */
module LeaseRetry {
  import opened Options
  import opened LeaseRows
  import opened LeaseSystem
  import opened LeaseCoupling
  import opened LeaseFence

  const AUTOMATIC := Policy(AfterOwner, true, true)

  /** The same with no split scanner at all: every scanner closes in one step, the owner alive or not. */
  const ATOMIC := Policy(Never, true, true)

  /** Every attempt of a message except its newest is `failed_safe`. */
  ghost predicate OnlyNewestOpen(attempts: seq<Attempt>) {
    forall i, j | 0 <= i < j < |attempts| && attempts[i].message == attempts[j].message ::
      attempts[i].status == FailedSafe
  }

  ghost predicate AllFailedSafe(attempts: seq<Attempt>, m: nat) {
    forall i | 0 <= i < |attempts| && attempts[i].message == m :: attempts[i].status == FailedSafe
  }

  /** The decision row still shows the outcome its attempt ended with. */
  predicate Projects(db: Db, a: Attempt) {
    && a.message in db.decisions
    && db.decisions[a.message].status == Completed
    && db.decisions[a.message].agreement == ReviewDisabled
    && db.decisions[a.message].automation == a.automation
  }

  ghost predicate SuccessProjected(db: Db) {
    forall i | 0 <= i < |db.attempts| && db.attempts[i].status == Succeeded :: Projects(db, db.attempts[i])
  }

  ghost predicate PassedGate(s: State) {
    forall m | m in s.workers && (s.workers[m].Gated? || s.workers[m].Saved?) :: AllFailedSafe(s.db.attempts, m)
  }

  ghost predicate Auto(s: State) {
    Fenced(s) && OnlyNewestOpen(s.db.attempts) && SuccessProjected(s.db) && PassedGate(s)
  }

  /** The gate lets a call through exactly when no attempt of the message is anything but `failed_safe`. */
  lemma GateProceedsIff(db: Db, m: nat)
    requires OnlyNewestOpen(db.attempts) && SuccessProjected(db)
    ensures Gate(db, m) == Proceed <==> AllFailedSafe(db.attempts, m)
  {
    match Newest(db.attempts, m)
    case None =>
    case Some(i) =>
      assert db.attempts[i].message == m;
      if AllFailedSafe(db.attempts, m) { assert db.attempts[i].status == FailedSafe; }
      if db.attempts[i].status == FailedSafe {
        forall k | 0 <= k < |db.attempts| && db.attempts[k].message == m
          ensures db.attempts[k].status == FailedSafe
        {
          if k < i { } else { assert k == i; }
        }
      }
  }

  lemma OthersFailedSafe(attempts: seq<Attempt>, id: nat)
    requires OnlyNewestOpen(attempts) && id < |attempts| && attempts[id].status != FailedSafe
    ensures forall k | 0 <= k < |attempts| && attempts[k].message == attempts[id].message && k != id ::
              k < id && attempts[k].status == FailedSafe
  {
  }

  lemma WriteKeepsOpen(s: State, f: Flight, now: int, i: nat, j: nat)
    requires Auto(s) && Writable(s, f) && WriteWins(s.db, f)
    requires i < j < |WriteStep(s, f, now).db.attempts|
    requires WriteStep(s, f, now).db.attempts[i].message == WriteStep(s, f, now).db.attempts[j].message
    ensures WriteStep(s, f, now).db.attempts[i].status == FailedSafe
  {
    WrittenRow(s, f, now);
    OthersFailedSafe(s.db.attempts, f.id);
    assert s.db.attempts[i].status == FailedSafe;
  }

  lemma WriteProjects(s: State, f: Flight, now: int, i: nat)
    requires Auto(s) && Writable(s, f) && WriteWins(s.db, f)
    requires i < |WriteStep(s, f, now).db.attempts| && WriteStep(s, f, now).db.attempts[i].status == Succeeded
    ensures Projects(WriteStep(s, f, now).db, WriteStep(s, f, now).db.attempts[i])
  {
    WrittenRow(s, f, now);
    OthersFailedSafe(s.db.attempts, f.id);
    assert SameButLease(s.db.attempts[f.id], f.seen);
    if i != f.id { assert Projects(s.db, s.db.attempts[i]); }
  }

  lemma WritePassed(s: State, f: Flight, now: int, k: nat)
    requires Auto(s) && Writable(s, f) && WriteWins(s.db, f)
    requires k in s.workers && (s.workers[k].Gated? || s.workers[k].Saved?)
    ensures AllFailedSafe(WriteStep(s, f, now).db.attempts, k)
  {
    WrittenRow(s, f, now);
    assert AllFailedSafe(s.db.attempts, k);
  }

  lemma WriteAuto(s: State, f: Flight, now: int)
    requires Auto(s) && Writable(s, f)
    ensures Auto(WriteStep(s, f, now))
  {
    var s' := WriteStep(s, f, now);
    WriteFenced(s, f, now);
    if WriteWins(s.db, f) {
      forall i, j | 0 <= i < j < |s'.db.attempts| && s'.db.attempts[i].message == s'.db.attempts[j].message
        ensures s'.db.attempts[i].status == FailedSafe
      {
        WriteKeepsOpen(s, f, now, i, j);
      }
      forall i | 0 <= i < |s'.db.attempts| && s'.db.attempts[i].status == Succeeded
        ensures Projects(s'.db, s'.db.attempts[i])
      {
        WriteProjects(s, f, now, i);
      }
      forall k | k in s'.workers && (s'.workers[k].Gated? || s'.workers[k].Saved?)
        ensures AllFailedSafe(s'.db.attempts, k)
      {
        WritePassed(s, f, now, k);
      }
    }
  }

  lemma ReclaimAuto(s: State, m: nat, now: int)
    requires Auto(s) && WorkerOf(s, m).Reclaiming?
    ensures Auto(Next(AUTOMATIC, s, ReclaimWrite(m, now)).value)
  {
    var f := WorkerOf(s, m).reclaim;
    FlightWritable(s, m, f);
    WriteAuto(s, f, now);
    ReclaimFenced(AUTOMATIC, s, m, now);
    GateProceedsIff(WriteStep(s, f, now).db, m);
  }

  lemma OwnerWriteAuto(s: State, m: nat, now: int)
    requires Auto(s) && WorkerOf(s, m).Owns? && WorkerOf(s, m).closing.Some?
    ensures Auto(Next(AUTOMATIC, s, CloseWrite(m, now)).value)
  {
    var f := WorkerOf(s, m).closing.value;
    FlightWritable(s, m, f);
    WriteAuto(s, f, now);
    OwnerWriteFenced(AUTOMATIC, s, m, now);
  }

  lemma ScanWriteAuto(s: State, f: Flight, now: int)
    requires Auto(s) && f in s.scans
    ensures Auto(WriteStep(s.(scans := s.scans - multiset{f}), f, now))
  {
    var u := s.(scans := s.scans - multiset{f});
    ScanWriteFenced(s, f, now);
    assert ScanOk(s, f);
    FencedWithoutScan(s, f);
    WriteAuto(u, f, now);
  }

  lemma FencedWithoutScan(s: State, f: Flight)
    requires Fenced(s) && f in s.scans
    ensures Writable(s.(scans := s.scans - multiset{f}), f)
  {
    var u := s.(scans := s.scans - multiset{f});
    forall e | e in u.log ensures EventOk(u, e) { assert EventOk(s, e); }
    forall k | k in u.workers ensures WorkerOk(u, k, u.workers[k]) { assert WorkerOk(s, k, s.workers[k]); }
    forall g | g in u.scans ensures ScanOk(u, g) { assert ScanOk(s, g); }
    assert ScanOk(s, f);
    forall k | k in u.workers && u.workers[k].Owns? && u.workers[k].stage == AtBoundary
      ensures u.workers[k].id != f.id
    {
      assert WorkerRows(s.db, k, s.workers[k]);
    }
  }

  lemma ClaimProjects(s: State, m: nat, role: Role, token: nat, now: int, expiry: int, i: nat)
    requires Auto(s) && WorkerOf(s, m).Saved?
    requires i < |Next(AUTOMATIC, s, ClaimLease(m, role, token, now, expiry)).value.db.attempts|
    requires Next(AUTOMATIC, s, ClaimLease(m, role, token, now, expiry)).value.db.attempts[i].status == Succeeded
    ensures var s' := Next(AUTOMATIC, s, ClaimLease(m, role, token, now, expiry)).value;
      Projects(s'.db, s'.db.attempts[i])
  {
    ClaimShape(AUTOMATIC, s, m, role, token, now, expiry);
    assert AllFailedSafe(s.db.attempts, m);
    assert i < |s.db.attempts| && Projects(s.db, s.db.attempts[i]);
  }

  lemma ClaimPassed(s: State, m: nat, role: Role, token: nat, now: int, expiry: int, k: nat)
    requires Auto(s) && WorkerOf(s, m).Saved?
    requires var w := Next(AUTOMATIC, s, ClaimLease(m, role, token, now, expiry)).value.workers;
      k in w && (w[k].Gated? || w[k].Saved?)
    ensures AllFailedSafe(Next(AUTOMATIC, s, ClaimLease(m, role, token, now, expiry)).value.db.attempts, k)
  {
    ClaimShape(AUTOMATIC, s, m, role, token, now, expiry);
    assert AllFailedSafe(s.db.attempts, k);
  }

  lemma ClaimAuto(s: State, m: nat, role: Role, token: nat, now: int, expiry: int)
    requires Auto(s) && WorkerOf(s, m).Saved?
    ensures Auto(Next(AUTOMATIC, s, ClaimLease(m, role, token, now, expiry)).value)
  {
    var s' := Next(AUTOMATIC, s, ClaimLease(m, role, token, now, expiry)).value;
    ClaimFenced(AUTOMATIC, s, m, role, token, now, expiry);
    ClaimShape(AUTOMATIC, s, m, role, token, now, expiry);
    assert AllFailedSafe(s.db.attempts, m);
    forall i | 0 <= i < |s'.db.attempts| && s'.db.attempts[i].status == Succeeded
      ensures Projects(s'.db, s'.db.attempts[i])
    {
      ClaimProjects(s, m, role, token, now, expiry, i);
    }
    forall k | k in s'.workers && (s'.workers[k].Gated? || s'.workers[k].Saved?)
      ensures AllFailedSafe(s'.db.attempts, k)
    {
      ClaimPassed(s, m, role, token, now, expiry, k);
    }
  }

  lemma SaveAuto(s: State, m: nat, d: Decision, w: Worker)
    requires Auto(s) && WorkerOf(s, m) == Gated && (w.Free? || w.Saved?)
    requires Fenced(SetWorker(s.(db := s.db.(decisions := s.db.decisions[m := d])), m, w))
    ensures Auto(SetWorker(s.(db := s.db.(decisions := s.db.decisions[m := d])), m, w))
  {
    var s' := SetWorker(s.(db := s.db.(decisions := s.db.decisions[m := d])), m, w);
    assert AllFailedSafe(s.db.attempts, m);
    forall i | 0 <= i < |s'.db.attempts| && s'.db.attempts[i].status == Succeeded
      ensures Projects(s'.db, s'.db.attempts[i])
    {
      assert Projects(s.db, s.db.attempts[i]);
    }
  }

  lemma RowAuto(s: State, s': State, id: nat)
    requires Auto(s) && Fenced(s') && id < |s.db.attempts| == |s'.db.attempts|
    requires s'.db.decisions == s.db.decisions && s'.db.attempts == s.db.attempts[id := s'.db.attempts[id]]
    requires s'.db.attempts[id].message == s.db.attempts[id].message
    requires Active(s.db.attempts[id].status) && Active(s'.db.attempts[id].status)
    requires forall m | m in s'.workers && (s'.workers[m].Gated? || s'.workers[m].Saved?) ::
               m in s.workers && (s.workers[m].Gated? || s.workers[m].Saved?)
    ensures Auto(s')
  {
    forall i | 0 <= i < |s'.db.attempts| && s'.db.attempts[i].status == Succeeded
      ensures Projects(s'.db, s'.db.attempts[i])
    {
      assert Projects(s.db, s.db.attempts[i]);
    }
    forall k | k in s'.workers && (s'.workers[k].Gated? || s'.workers[k].Saved?)
      ensures AllFailedSafe(s'.db.attempts, k)
    {
      assert AllFailedSafe(s.db.attempts, k);
    }
  }

  /** Steps that leave every row as it was. */
  lemma SavesAuto(s: State, a: Action)
    requires Auto(s) && Next(AUTOMATIC, s, a).Some? && (a.Save? || a.SaveFailed?)
    ensures Auto(Next(AUTOMATIC, s, a).value)
  {
    var s' := Next(AUTOMATIC, s, a).value;
    StepFenced(AUTOMATIC, s, a);
    if !SaveRefused(s.db, a.m) { SaveAuto(s, a.m, s'.db.decisions[a.m], WorkerOf(s', a.m)); }
  }

  lemma CallAuto(s: State, m: nat)
    requires Auto(s) && Next(AUTOMATIC, s, Call(m)).Some?
    ensures Auto(Next(AUTOMATIC, s, Call(m)).value)
  {
    StepFenced(AUTOMATIC, s, Call(m));
    GateProceedsIff(s.db, m);
  }

  lemma ReadAuto(s: State, a: Action)
    requires Auto(s) && Next(AUTOMATIC, s, a).Some? && (a.CloseRead? || a.ScanRead?)
    ensures Auto(Next(AUTOMATIC, s, a).value)
  {
    StepFenced(AUTOMATIC, s, a);
  }

  lemma QuietAuto(s: State, a: Action)
    requires Auto(s) && Next(AUTOMATIC, s, a).Some?
    requires a.Call? || a.ManualCall? || a.Save? || a.SaveFailed? || a.Leave? || a.CloseRead? || a.ScanRead? ||
      a.CallAdapter?
    ensures Auto(Next(AUTOMATIC, s, a).value)
  {
    if a.Save? || a.SaveFailed? {
      SavesAuto(s, a);
    } else if a.Call? {
      CallAuto(s, a.m);
    } else if a.CloseRead? || a.ScanRead? {
      ReadAuto(s, a);
    } else {
      StepFenced(AUTOMATIC, s, a);
    }
  }

  lemma ScanNowAuto(s: State, id: nat, c: Closer, now: int)
    requires Auto(s) && Next(AUTOMATIC, s, ScanNow(id, c, now)).Some?
    ensures Auto(Next(AUTOMATIC, s, ScanNow(id, c, now)).value)
  {
    var row := s.db.attempts[id];
    if CanRead(s.db, id, row.token, c) {
      FreshFlightWritable(s, id, c);
      WriteAuto(s, Flight(id, c, row), now);
    }
  }

  lemma OverwriteAuto(s: State, m: nat, agreement: Agreement, automation: Automation)
    requires Auto(s) && Next(AUTOMATIC, s, Overwrite(m, agreement, automation)).Some?
    ensures Auto(Next(AUTOMATIC, s, Overwrite(m, agreement, automation)).value)
  {
    OverwriteFenced(AUTOMATIC, s, m, agreement, automation);
    if !SaveRefused(s.db, m) { OverwriteProjects(s.db, m, Overwritten(agreement, automation)); }
  }

  /** An overwrite that is allowed leaves every projected success projected. */
  lemma OverwriteProjects(db: Db, m: nat, d: Decision)
    requires SuccessProjected(db) && (HasSucceeded(db, m) ==> m in db.decisions && db.decisions[m] == d)
    ensures SuccessProjected(db.(decisions := db.decisions[m := d]))
  {
    forall i | 0 <= i < |db.attempts| && db.attempts[i].status == Succeeded
      ensures Projects(db.(decisions := db.decisions[m := d]), db.attempts[i])
    {
      assert Projects(db, db.attempts[i]);
    }
  }

  /** In such a state an overwrite changes what the gate answers exactly when the newest attempt of the
      message succeeded and the new decision no longer shows its outcome: then a retry runs it again. */
  lemma OverwriteReopensIff(s: State, m: nat, agreement: Agreement, automation: Automation)
    requires Auto(s) && !SaveRefused(s.db, m)
    ensures var after := s.db.(decisions := s.db.decisions[m := Overwritten(agreement, automation)]);
      var newest := Newest(s.db.attempts, m);
      && (Gate(after, m) != Gate(s.db, m) <==>
            newest.Some? && s.db.attempts[newest.value].status == Succeeded
            && (agreement == AuthoritativeFailed || automation != s.db.attempts[newest.value].automation))
      && (Gate(after, m) != Gate(s.db, m) ==> Gate(s.db, m) == AlreadyDone && Gate(after, m) == Proceed)
  {
    var newest := Newest(s.db.attempts, m);
    if newest.Some? && s.db.attempts[newest.value].status == Succeeded {
      assert Projects(s.db, s.db.attempts[newest.value]);
    }
  }

  lemma OwnerRowAuto(s: State, a: Action)
    requires Auto(s) && Next(AUTOMATIC, s, a).Some? && (a.StartSideEffect? || a.RecordEffect?)
    ensures Auto(Next(AUTOMATIC, s, a).value)
  {
    var s' := Next(AUTOMATIC, s, a).value;
    var w := WorkerOf(s, a.m);
    OwnerActs(AUTOMATIC, s, a);
    if s'.db != s.db {
      RowAuto(s, s', w.id);
    }
  }

  lemma BeatAuto(s: State, id: nat, token: nat, expiry: int)
    requires Auto(s)
    ensures Auto(s.(db := Heartbeat(s.db, id, token, expiry)))
  {
    BeatFenced(s, id, token, expiry);
    if CanHeartbeat(s.db, id, token) {
      RowAuto(s, s.(db := Heartbeat(s.db, id, token, expiry)), id);
    }
  }

  lemma StepAuto(s: State, a: Action)
    requires Auto(s) && Next(AUTOMATIC, s, a).Some?
    ensures Auto(Next(AUTOMATIC, s, a).value)
  {
    match a
    case ReclaimWrite(m, now) => ReclaimAuto(s, m, now);
    case ClaimLease(m, role, token, now, expiry) => ClaimAuto(s, m, role, token, now, expiry);
    case StartSideEffect(m, now) => OwnerRowAuto(s, a);
    case RecordEffect(m, status, reason, effect, evidence) => OwnerRowAuto(s, a);
    case CloseWrite(m, now) => OwnerWriteAuto(s, m, now);
    case ScanWrite(f, now) => ScanWriteAuto(s, f, now);
    case ScanNow(id, c, now) => ScanNowAuto(s, id, c, now);
    case Overwrite(m, agreement, automation) => OverwriteAuto(s, m, agreement, automation);
    case Beat(id, token, expiry) => BeatAuto(s, id, token, expiry);
    case _ => QuietAuto(s, a);
  }

  lemma {:induction false} RunAuto(s: State, trace: seq<Action>)
    requires Auto(s) && Run(AUTOMATIC, s, trace).Some?
    ensures Auto(Run(AUTOMATIC, s, trace).value)
  {
    if trace != [] {
      RunAuto(s, trace[..|trace| - 1]);
      StepAuto(Run(AUTOMATIC, s, trace[..|trace| - 1]).value, trace[|trace| - 1]);
    }
  }

  // ---------------------------------------------------------------- the theorems

  predicate Decisive(a: Attempt) {
    a.effect.Some? && a.effect != Some(NotStarted)
  }

  /** Over any run, with crashes and scanners at any point, at most one generation of a message
      ends with a decisive effect, and at most one ever had a request reach the venue. */
  lemma AtMostOneGenerationTakesEffect(trace: seq<Action>, i: nat, j: nat)
    requires Run(AUTOMATIC, EMPTY, trace).Some?
    requires var s := Run(AUTOMATIC, EMPTY, trace).value;
      && i < |s.db.attempts| && j < |s.db.attempts| && s.db.attempts[i].message == s.db.attempts[j].message
      && (Decisive(s.db.attempts[i]) || i in s.wrote) && (Decisive(s.db.attempts[j]) || j in s.wrote)
    ensures i == j
  {
    RunAuto(EMPTY, trace);
    var s := Run(AUTOMATIC, EMPTY, trace).value;
    assert RowOk(s.db.attempts[i]) && RowOk(s.db.attempts[j]);
    assert i in s.wrote ==> WroteRow(s.db.attempts[i]);
    assert j in s.wrote ==> WroteRow(s.db.attempts[j]);
    if i < j { } else if j < i { }
  }

  /** Without split scanners a run is one of the runs above. */
  lemma {:induction false} AtomicRuns(s: State, trace: seq<Action>)
    requires Run(ATOMIC, s, trace).Some?
    ensures Run(AUTOMATIC, s, trace) == Run(ATOMIC, s, trace)
  {
    if trace != [] { AtomicRuns(s, trace[..|trace| - 1]); }
  }

  /** So with scanners that close in one step under the attempt's own token, whenever they like and
      whether or not its owner lives, at most one generation of a message takes effect. */
  lemma AtomicScannersLeaveOneEffect(trace: seq<Action>, i: nat, j: nat)
    requires Run(ATOMIC, EMPTY, trace).Some?
    requires var s := Run(ATOMIC, EMPTY, trace).value;
      && i < |s.db.attempts| && j < |s.db.attempts| && s.db.attempts[i].message == s.db.attempts[j].message
      && (Decisive(s.db.attempts[i]) || i in s.wrote) && (Decisive(s.db.attempts[j]) || j in s.wrote)
    ensures i == j
  {
    AtomicRuns(EMPTY, trace);
    AtMostOneGenerationTakesEffect(trace, i, j);
  }

  lemma EarlierAttemptsFailedSafe(trace: seq<Action>, i: nat, j: nat)
    requires Run(AUTOMATIC, EMPTY, trace).Some?
    requires i < j < |Run(AUTOMATIC, EMPTY, trace).value.db.attempts|
    requires var at := Run(AUTOMATIC, EMPTY, trace).value.db.attempts; at[i].message == at[j].message
    ensures var row := Run(AUTOMATIC, EMPTY, trace).value.db.attempts[i];
      row.status == FailedSafe && (row.effect == None || row.effect == Some(NotStarted))
  {
    RunAuto(EMPTY, trace);
    assert RowOk(Run(AUTOMATIC, EMPTY, trace).value.db.attempts[i]);
  }

  /** A row that ended in anything but `failed_safe`. */
  predicate Settled(a: Attempt) { !Active(a.status) && a.status != FailedSafe }

  lemma SettledStep(s: State, a: Action, i: nat)
    requires Auto(s) && Next(AUTOMATIC, s, a).Some? && i < |s.db.attempts| && Settled(s.db.attempts[i])
    ensures var s' := Next(AUTOMATIC, s, a).value;
      && i < |s'.db.attempts| && s'.db.attempts[i] == s.db.attempts[i]
      && (forall k | k in s'.called && k !in s.called :: k < |s.db.attempts| && OnlyItsOwner(s.db.attempts, i, k))
  {
    StepKeepsInv(AUTOMATIC, s, a);
    if a.CallAdapter? {
      var w := WorkerOf(s, a.m);
      assert WorkerRows(s.db, a.m, w) && WorkerOk(s, a.m, w);
      OthersFailedSafe(s.db.attempts, i);
    } else {
      OnlyCallsCall(AUTOMATIC, s, a);
    }
  }

  lemma OnlyCallsCall(p: Policy, s: State, a: Action)
    requires Next(p, s, a).Some? && !a.CallAdapter?
    ensures Next(p, s, a).value.called == s.called
  {
  }

  /** A call for the settled message comes only from the owner of the settled attempt itself, frozen by a
      scanner after it had crossed the boundary. */
  predicate OnlyItsOwner(attempts: seq<Attempt>, i: nat, k: nat)
    requires i < |attempts| && k < |attempts|
  {
    attempts[k].message == attempts[i].message ==> k == i && attempts[i].status == Uncertain
  }

  /** Once an attempt is succeeded, uncertain or closed, its message is never run again: it stays the
      newest attempt, unchanged, and the adapter is never called for the message but by the owner of that
      very attempt, if it was frozen between the boundary and its call. */
  lemma {:induction false} SettledNeverRunsAgain(trace: seq<Action>, more: seq<Action>, i: nat)
    requires Run(AUTOMATIC, EMPTY, trace).Some?
    requires Run(AUTOMATIC, Run(AUTOMATIC, EMPTY, trace).value, more).Some?
    requires var at := Run(AUTOMATIC, EMPTY, trace).value.db.attempts; i < |at| && Settled(at[i])
    ensures var s := Run(AUTOMATIC, EMPTY, trace).value;
      var later := Run(AUTOMATIC, s, more).value;
      && i < |later.db.attempts| && later.db.attempts[i] == s.db.attempts[i]
      && Newest(later.db.attempts, s.db.attempts[i].message) == Some(i)
      && (forall k | k in later.called && k !in s.called ::
            k < |later.db.attempts| && OnlyItsOwner(later.db.attempts, i, k))
    decreases |more|
  {
    var s := Run(AUTOMATIC, EMPTY, trace).value;
    RunAuto(EMPTY, trace);
    RunAuto(s, more);
    if more != [] {
      var t := more[..|more| - 1];
      SettledNeverRunsAgain(trace, t, i);
      RunAuto(s, t);
      var u := Run(AUTOMATIC, s, t).value;
      SettledStep(u, more[|more| - 1], i);
      StepKeepsInv(AUTOMATIC, u, more[|more| - 1]);
    }
    var later := Run(AUTOMATIC, s, more).value;
    var n := Newest(later.db.attempts, s.db.attempts[i].message);
    assert n.Some? && later.db.attempts[n.value].message == later.db.attempts[i].message;
    OthersFailedSafe(later.db.attempts, i);
  }
}
