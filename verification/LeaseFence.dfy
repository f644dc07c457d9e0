/** What holds when every scanner closes in one step, whoever owns the attempt, or else loads its row
    only after the owner has gone. */
module LeaseFence {
  import opened Options
  import opened LeaseRows
  import opened LeaseSystem
  import opened LeaseCoupling

  /** No split scanner loads the row of an attempt whose owner is still there. */
  predicate Careful(p: Policy) { p.splitScans != Anytime }

  predicate RowOk(a: Attempt) {
    match a.status
    case Claimed => a.startedAt == None && a.effect == None
    case Executing => a.startedAt.Some? && a.effect == None
    case OutcomeRecorded => Reported(a)
    case Succeeded => Reported(a)
    case FailedSafe => a.effect == None || a.effect == Some(NotStarted)
    case Uncertain => a.startedAt.Some? && a.effect == Some(OutcomeUnknown)
    case ClosedNoWrite => a.startedAt.Some? && a.effect == Some(NotStarted)
    case ClosedSettledBinding => false
  }

  predicate Reported(a: Attempt) {
    a.effect.Some? && a.effect != Some(OutcomeUnknown) && (a.effect != Some(NotStarted) ==> a.startedAt.Some?)
  }

  predicate SameButLease(a: Attempt, b: Attempt) {
    a.(leaseExpiresAt := 0) == b.(leaseExpiresAt := 0)
  }

  /** While its generation still runs, the row of a flight is the row it loaded. */
  ghost predicate Unmoved(db: Db, f: Flight) {
    FlightOf(db, f) &&
    (Running(db, f.seen.message, f.seen.generation) ==> SameButLease(db.attempts[f.id], f.seen))
  }

  ghost predicate ScanOk(s: State, f: Flight) {
    Unmoved(s.db, f) && !Owned(s, f.id) && !f.closer.Refuse? && !f.closer.Preflight?
  }

  ghost predicate WorkerOk(s: State, m: nat, w: Worker) {
    match w
    case Reclaiming(f) => Unmoved(s.db, f)
    case Owns(id, stage, closing) =>
      && id < |s.db.attempts|
      && (stage == AtBoundary ==> s.db.attempts[id].status == Executing || s.db.attempts[id].status == Uncertain)
      && (closing.Some? ==>
            && stage == Past && Unmoved(s.db, closing.value)
            && (closing.value.closer.Refuse? || closing.value.closer.Preflight? ==> id !in s.wrote))
    case _ => true
  }

  /** A row behind which a request reached the venue. */
  predicate WroteRow(a: Attempt) {
    && a.status in {Executing, OutcomeRecorded, Succeeded, Uncertain}
    && a.effect != Some(NotStarted)
  }

  ghost predicate EventOk(s: State, e: Event) {
    e.id < |s.db.attempts| &&
    match e
    case AdapterCalled(id) => s.db.attempts[id].startedAt.Some?
    case ClosedBy(id, c, _, _) => c.FailSafe? ==> s.db.attempts[id].startedAt == None
  }

  ghost predicate RowsOk(s: State) {
    forall i | 0 <= i < |s.db.attempts| :: RowOk(s.db.attempts[i])
  }

  ghost predicate ScansOk(s: State) {
    forall f | f in s.scans :: ScanOk(s, f)
  }

  ghost predicate WorkersOk(s: State) {
    forall m | m in s.workers :: WorkerOk(s, m, s.workers[m])
  }

  ghost predicate AdapterOk(s: State) {
    && (forall i | i in s.called :: i < |s.db.attempts| && s.db.attempts[i].startedAt.Some?)
    && (forall i | i in s.wrote :: i in s.called && WroteRow(s.db.attempts[i]))
  }

  ghost predicate EventsOk(s: State) {
    forall e | e in s.log :: EventOk(s, e)
  }

  ghost predicate Fenced(s: State) {
    Inv(s) && RowsOk(s) && ScansOk(s) && WorkersOk(s) && AdapterOk(s) && EventsOk(s)
  }

  // ---------------------------------------------------------------- replacing one row

  /** What a step may do to the row `id` without disturbing the rest of the invariant. */
  ghost predicate RowStep(s: State, id: nat, row: Attempt) {
    && id < |s.db.attempts|
    && row.message == s.db.attempts[id].message
    && row.generation == s.db.attempts[id].generation
    && row.token == s.db.attempts[id].token
    && RowOk(row)
    && (s.db.attempts[id].startedAt.Some? ==> row.startedAt.Some?)
    && (id in s.wrote ==> WroteRow(row))
  }

  lemma OwnerRowStep(s: State, m: nat, id: nat, row: Attempt, stage: Stage)
    requires Fenced(s) && RowStep(s, id, row) && Active(s.db.attempts[id].status) && Active(row.status)
    requires WorkerOf(s, m).Owns? && WorkerOf(s, m).id == id && WorkerOf(s, m).closing == None
    requires stage == AtBoundary ==> row.status == Executing
    ensures Fenced(SetWorker(s.(db := SetRow(s.db, id, row)), m, Owns(id, stage, None)))
  {
    var s' := SetWorker(s.(db := SetRow(s.db, id, row)), m, Owns(id, stage, None));
    RowKeepsInv(s, m, Owns(id, stage, None), id, row);
    assert Inv(s');
    assert WorkerRows(s.db, m, WorkerOf(s, m));
    assert Owned(s, id);
    forall f | f in s'.scans ensures ScanOk(s', f) { assert ScanOk(s, f); }
    forall k | k in s'.workers ensures WorkerOk(s', k, s'.workers[k]) {
      if k != m { assert WorkerOk(s, k, s.workers[k]) && WorkerRows(s.db, k, s.workers[k]); }
    }
    forall e | e in s'.log ensures EventOk(s', e) {
      assert EventOk(s, e) && Logged(s.db, e);
    }
  }

  lemma UnmovedWrite(db: Db, f: Flight, g: Flight, now: int)
    requires Coupled(db) && FlightOf(db, f) && Unmoved(db, g)
    ensures Unmoved(Write(db, f, now), g)
  {
    WriteExtends(db, f, now);
  }

  /** The row and the side conditions of a write, for the lemmas below. */
  ghost predicate Writable(s: State, f: Flight) {
    && Fenced(s) && Unmoved(s.db, f)
    && ((f.closer.Refuse? || f.closer.Preflight?) ==> f.id !in s.wrote)
    && (forall m | m in s.workers && s.workers[m].Owns? && s.workers[m].stage == AtBoundary ::
          s.workers[m].id == f.id ==> f.closer.Freeze?)
  }

  lemma WrittenRow(s: State, f: Flight, now: int)
    requires Writable(s, f) && WriteWins(s.db, f)
    ensures var row, row' := s.db.attempts[f.id], ClosedRow(s.db.attempts[f.id], f.closer, now);
      && Active(row.status) && Guard(row, f.closer) && RowOk(row')
      && row'.startedAt == row.startedAt && (f.id in s.wrote ==> WroteRow(row'))
  {
    WinnerClosesActiveRow(s.db, f);
    assert SameButLease(s.db.attempts[f.id], f.seen);
    assert RowOk(s.db.attempts[f.id]);
    if f.id in s.wrote { assert f.id in s.called && WroteRow(s.db.attempts[f.id]); }
  }

  lemma WrittenScans(s: State, f: Flight, now: int)
    requires Writable(s, f) && WriteWins(s.db, f)
    ensures ScansOk(WriteStep(s, f, now))
  {
    var s' := WriteStep(s, f, now);
    WriteExtends(s.db, f, now);
    forall g | g in s'.scans ensures ScanOk(s', g) {
      assert ScanOk(s, g);
      UnmovedWrite(s.db, f, g, now);
    }
  }

  lemma WrittenWorkers(s: State, f: Flight, now: int)
    requires Writable(s, f) && WriteWins(s.db, f)
    ensures WorkersOk(WriteStep(s, f, now))
  {
    var s' := WriteStep(s, f, now);
    forall k | k in s'.workers ensures WorkerOk(s', k, s'.workers[k]) {
      var w := s.workers[k];
      assert WorkerOk(s, k, w);
      if w.Reclaiming? { UnmovedWrite(s.db, f, w.reclaim, now); }
      if w.Owns? && w.closing.Some? { UnmovedWrite(s.db, f, w.closing.value, now); }
    }
  }

  /** A visit in one step meets a worker at the boundary only to freeze its row. */
  lemma FreshFlightWritable(s: State, id: nat, c: Closer)
    requires Fenced(s) && id < |s.db.attempts| && (c.FailSafe? || c.Freeze? || c.Finalize?)
    requires CanRead(s.db, id, s.db.attempts[id].token, c)
    ensures Writable(s, Flight(id, c, s.db.attempts[id]))
  {
    forall m | m in s.workers && s.workers[m].Owns? && s.workers[m].stage == AtBoundary && s.workers[m].id == id
      ensures c.Freeze?
    {
      assert WorkerOk(s, m, s.workers[m]);
    }
  }

  lemma ScanNowFenced(p: Policy, s: State, id: nat, c: Closer, now: int)
    requires Fenced(s) && Next(p, s, ScanNow(id, c, now)).Some?
    ensures Fenced(Next(p, s, ScanNow(id, c, now)).value)
  {
    var row := s.db.attempts[id];
    if CanRead(s.db, id, row.token, c) {
      FreshFlightWritable(s, id, c);
      WriteFenced(s, Flight(id, c, row), now);
    }
  }

  lemma WrittenEvents(s: State, f: Flight, now: int)
    requires Writable(s, f) && WriteWins(s.db, f)
    ensures EventsOk(WriteStep(s, f, now))
  {
    var s' := WriteStep(s, f, now);
    WrittenRow(s, f, now);
    forall e | e in s'.log ensures EventOk(s', e) {
      if e in s.log { assert EventOk(s, e); }
    }
  }

  lemma WriteFenced(s: State, f: Flight, now: int)
    requires Writable(s, f)
    ensures Fenced(WriteStep(s, f, now))
  {
    WriteKeepsInv(s, f, now);
    if WriteWins(s.db, f) {
      WrittenRow(s, f, now);
      WrittenScans(s, f, now);
      WrittenWorkers(s, f, now);
      WrittenEvents(s, f, now);
    }
  }

  lemma WorkerFenced(s: State, m: nat, w: Worker)
    requires Fenced(s) && WorkerRows(s.db, m, w) && WorkerOk(s, m, w)
    requires w.Owns? ==> forall f | f in s.scans :: f.id != w.id
    ensures Fenced(SetWorker(s, m, w))
  {
    var s' := SetWorker(s, m, w);
    InvWorker(s, m, w);
    forall f | f in s'.scans ensures ScanOk(s', f) { assert ScanOk(s, f); }
    forall k | k in s'.workers ensures WorkerOk(s', k, s'.workers[k]) {
      if k != m { assert WorkerOk(s, k, s.workers[k]); }
    }
    forall e | e in s'.log ensures EventOk(s', e) { assert EventOk(s, e); }
  }

  /** Only decisions change, and none starts or stops running. */
  lemma DecisionFenced(s: State, m: nat, d: Decision, w: Worker)
    requires Fenced(s) && !SaveRefused(s.db, m) && d.status != ExecutionRunning && (w.Free? || w.Saved?)
    ensures Fenced(SetWorker(s.(db := s.db.(decisions := s.db.decisions[m := d])), m, w))
  {
    var s' := SetWorker(s.(db := s.db.(decisions := s.db.decisions[m := d])), m, w);
    SaveKeepsInv(s, m, d, w);
    forall f | f in s'.scans ensures ScanOk(s', f) { assert ScanOk(s, f); }
    forall k | k in s'.workers ensures WorkerOk(s', k, s'.workers[k]) {
      if k != m { assert WorkerOk(s, k, s.workers[k]); }
    }
    forall e | e in s'.log ensures EventOk(s', e) { assert EventOk(s, e); }
  }

  /** A claim adds one row, touches one decision and changes no earlier row. */
  lemma ClaimShape(p: Policy, s: State, m: nat, role: Role, token: nat, now: int, expiry: int)
    requires WorkerOf(s, m).Saved?
    ensures var s' := Next(p, s, ClaimLease(m, role, token, now, expiry)).value;
      && s'.scans == s.scans && s'.called == s.called && s'.wrote == s.wrote && s'.log == s.log
      && |s.db.attempts| <= |s'.db.attempts| <= |s.db.attempts| + 1
      && (forall i | 0 <= i < |s.db.attempts| :: s'.db.attempts[i] == s.db.attempts[i])
      && (|s'.db.attempts| > |s.db.attempts| ==>
            && RowOk(s'.db.attempts[|s.db.attempts|]) && s'.db.attempts[|s.db.attempts|].status == Claimed
            && s'.db.attempts[|s.db.attempts|].message == m
            && s'.workers == s.workers[m := Owns(|s.db.attempts|, Fresh, None)])
      && (|s'.db.attempts| == |s.db.attempts| ==> s' == SetWorker(s, m, Free))
      && (forall k, g | Running(s'.db, k, g) && !Running(s.db, k, g) :: k == m && |s'.db.attempts| > |s.db.attempts|)
      && (forall k | k in s'.db.decisions && k != m :: k in s.db.decisions && s'.db.decisions[k] == s.db.decisions[k])
      && (forall k | k in s.db.decisions :: k in s'.db.decisions)
  {
  }

  lemma ClaimScans(p: Policy, s: State, m: nat, role: Role, token: nat, now: int, expiry: int, f: Flight)
    requires Fenced(s) && WorkerOf(s, m).Saved? && f in s.scans
    ensures ScanOk(Next(p, s, ClaimLease(m, role, token, now, expiry)).value, f)
  {
    assert ScanOk(s, f);
  }

  lemma ClaimWorkers(p: Policy, s: State, m: nat, role: Role, token: nat, now: int, expiry: int, k: nat)
    requires Fenced(s) && WorkerOf(s, m).Saved? && k in s.workers && k != m
    ensures WorkerOk(Next(p, s, ClaimLease(m, role, token, now, expiry)).value, k, s.workers[k])
  {
    assert WorkerOk(s, k, s.workers[k]);
  }

  lemma ClaimRest(p: Policy, s: State, m: nat, role: Role, token: nat, now: int, expiry: int)
    requires Fenced(s) && WorkerOf(s, m).Saved?
    ensures var s' := Next(p, s, ClaimLease(m, role, token, now, expiry)).value;
      RowsOk(s') && AdapterOk(s') && EventsOk(s') && (m in s'.workers ==> WorkerOk(s', m, s'.workers[m]))
  {
    ClaimShape(p, s, m, role, token, now, expiry);
    var s' := Next(p, s, ClaimLease(m, role, token, now, expiry)).value;
    forall e | e in s'.log ensures EventOk(s', e) { assert EventOk(s, e); }
  }

  lemma ClaimFenced(p: Policy, s: State, m: nat, role: Role, token: nat, now: int, expiry: int)
    requires Fenced(s) && WorkerOf(s, m).Saved?
    ensures Fenced(Next(p, s, ClaimLease(m, role, token, now, expiry)).value)
  {
    var s' := Next(p, s, ClaimLease(m, role, token, now, expiry)).value;
    ClaimKeepsInv(p, s, m, role, token, now, expiry);
    ClaimShape(p, s, m, role, token, now, expiry);
    ClaimRest(p, s, m, role, token, now, expiry);
    forall f | f in s'.scans ensures ScanOk(s', f) { ClaimScans(p, s, m, role, token, now, expiry, f); }
    forall k | k in s'.workers ensures WorkerOk(s', k, s'.workers[k]) {
      if k != m { ClaimWorkers(p, s, m, role, token, now, expiry, k); }
    }
  }

  lemma BeatScans(s: State, id: nat, row: Attempt)
    requires Fenced(s) && id < |s.db.attempts| && SameButLease(row, s.db.attempts[id])
    ensures ScansOk(s.(db := SetRow(s.db, id, row)))
  {
    var s' := s.(db := SetRow(s.db, id, row));
    forall f | f in s'.scans ensures ScanOk(s', f) { assert ScanOk(s, f); }
  }

  lemma BeatWorkers(s: State, id: nat, row: Attempt)
    requires Fenced(s) && id < |s.db.attempts| && SameButLease(row, s.db.attempts[id])
    ensures WorkersOk(s.(db := SetRow(s.db, id, row)))
  {
    var s' := s.(db := SetRow(s.db, id, row));
    forall k | k in s'.workers ensures WorkerOk(s', k, s'.workers[k]) { assert WorkerOk(s, k, s.workers[k]); }
  }

  lemma BeatFenced(s: State, id: nat, token: nat, expiry: int)
    requires Fenced(s)
    ensures Fenced(s.(db := Heartbeat(s.db, id, token, expiry)))
  {
    var s' := s.(db := Heartbeat(s.db, id, token, expiry));
    BeatKeepsInv(s, id, token, expiry);
    if CanHeartbeat(s.db, id, token) {
      var row := s.db.attempts[id].(leaseExpiresAt := expiry);
      BeatScans(s, id, row);
      BeatWorkers(s, id, row);
      assert RowOk(s.db.attempts[id]);
      forall e | e in s'.log ensures EventOk(s', e) { assert EventOk(s, e); }
      forall i | i in s'.wrote ensures i in s'.called && WroteRow(s'.db.attempts[i]) {
        assert i in s.called && WroteRow(s.db.attempts[i]);
      }
    }
  }

  /** The owner's own rows are not in flight with any scanner. */
  lemma OwnedNotScanned(s: State, m: nat)
    requires Fenced(s) && WorkerOf(s, m).Owns?
    ensures forall f | f in s.scans :: f.id != WorkerOf(s, m).id
  {
    assert WorkerRows(s.db, m, s.workers[m]);
    forall f | f in s.scans ensures f.id != WorkerOf(s, m).id { assert ScanOk(s, f); }
  }

  lemma OwnerActs(p: Policy, s: State, a: Action)
    requires Fenced(s) && Next(p, s, a).Some? && (a.StartSideEffect? || a.RecordEffect?)
    ensures Fenced(Next(p, s, a).value)
  {
    var s' := Next(p, s, a).value;
    var w := WorkerOf(s, a.m);
    OwnedNotScanned(s, a.m);
    assert WorkerRows(s.db, a.m, w) && WorkerOk(s, a.m, w);
    if s'.db == s.db {
      WorkerFenced(s, a.m, WorkerOf(s', a.m));
    } else {
      var row := s'.db.attempts[w.id];
      assert RowOk(s.db.attempts[w.id]);
      assert w.id in s.wrote ==> WroteRow(s.db.attempts[w.id]);
      assert RowStep(s, w.id, row);
      OwnerRowStep(s, a.m, w.id, row, WorkerOf(s', a.m).stage);
    }
  }

  lemma AdapterFenced(p: Policy, s: State, m: nat, writes: bool)
    requires Fenced(s) && Next(p, s, CallAdapter(m, writes)).Some?
    ensures Fenced(Next(p, s, CallAdapter(m, writes)).value)
  {
    var s' := Next(p, s, CallAdapter(m, writes)).value;
    var w := WorkerOf(s, m);
    OwnedNotScanned(s, m);
    assert WorkerRows(s.db, m, w) && WorkerOk(s, m, w) && RowOk(s.db.attempts[w.id]);
    AdapterKeepsInv(p, s, m, writes);
    forall f | f in s'.scans ensures ScanOk(s', f) { assert ScanOk(s, f); }
    forall k | k in s'.workers ensures WorkerOk(s', k, s'.workers[k]) {
      if k != m { assert WorkerOk(s, k, s.workers[k]) && WorkerRows(s.db, k, s.workers[k]); }
    }
    forall e | e in s'.log ensures EventOk(s', e) { if e in s.log { assert EventOk(s, e); } }
  }

  lemma FlightWritable(s: State, m: nat, f: Flight)
    requires Fenced(s)
    requires var w := WorkerOf(s, m); w == Reclaiming(f) || (w.Owns? && w.closing == Some(f))
    ensures Writable(s, f)
  {
    var w := WorkerOf(s, m);
    assert WorkerRows(s.db, m, w) && WorkerOk(s, m, w);
    forall k | k in s.workers && s.workers[k].Owns? && s.workers[k].stage == AtBoundary
      ensures s.workers[k].id != f.id
    {
      assert WorkerRows(s.db, k, s.workers[k]);
    }
  }

  lemma ReclaimFenced(p: Policy, s: State, m: nat, now: int)
    requires Fenced(s) && WorkerOf(s, m).Reclaiming?
    ensures Fenced(Next(p, s, ReclaimWrite(m, now)).value)
  {
    var f := WorkerOf(s, m).reclaim;
    FlightWritable(s, m, f);
    WriteFenced(s, f, now);
    var u := WriteStep(s, f, now);
    WorkerFenced(u, m, if Gate(u.db, m) == Proceed then Gated else Free);
  }

  lemma OwnerWriteFenced(p: Policy, s: State, m: nat, now: int)
    requires Fenced(s) && WorkerOf(s, m).Owns? && WorkerOf(s, m).closing.Some?
    ensures Fenced(Next(p, s, CloseWrite(m, now)).value)
  {
    var w := WorkerOf(s, m);
    var f := w.closing.value;
    FlightWritable(s, m, f);
    WriteFenced(s, f, now);
    var u := WriteStep(s, f, now);
    OwnedNotScanned(u, m);
    assert WorkerRows(u.db, m, WorkerOf(u, m));
    WorkerFenced(u, m, Owns(w.id, Past, None));
  }

  lemma ScanWriteFenced(s: State, f: Flight, now: int)
    requires Fenced(s) && f in s.scans
    ensures Fenced(WriteStep(s.(scans := s.scans - multiset{f}), f, now))
  {
    var u := s.(scans := s.scans - multiset{f});
    assert Fenced(u) by {
      forall e | e in u.log ensures EventOk(u, e) { assert EventOk(s, e); }
      forall k | k in u.workers ensures WorkerOk(u, k, u.workers[k]) { assert WorkerOk(s, k, s.workers[k]); }
      forall g | g in u.scans ensures ScanOk(u, g) { assert ScanOk(s, g); }
    }
    assert ScanOk(s, f);
    forall k | k in u.workers && u.workers[k].Owns? && u.workers[k].stage == AtBoundary
      ensures u.workers[k].id != f.id
    {
      assert WorkerRows(s.db, k, s.workers[k]);
    }
    WriteFenced(u, f, now);
  }

  lemma CloseReadFenced(p: Policy, s: State, m: nat, c: Closer)
    requires Fenced(s) && Next(p, s, CloseRead(m, c)).Some?
    ensures Fenced(Next(p, s, CloseRead(m, c)).value)
  {
    var w := WorkerOf(s, m);
    var w' := WorkerOf(Next(p, s, CloseRead(m, c)).value, m);
    OwnedNotScanned(s, m);
    assert WorkerRows(s.db, m, w);
    assert w'.closing.Some? ==> FlightOf(s.db, w'.closing.value) && Unmoved(s.db, w'.closing.value);
    WorkerFenced(s, m, w');
  }

  lemma ScanReadScans(p: Policy, s: State, id: nat, c: Closer)
    requires Fenced(s) && Careful(p) && Next(p, s, ScanRead(id, c)).Some?
    ensures ScansOk(Next(p, s, ScanRead(id, c)).value)
  {
    var s' := Next(p, s, ScanRead(id, c)).value;
    forall f | f in s'.scans ensures ScanOk(s', f) { if f in s.scans { assert ScanOk(s, f); } }
  }

  /** Whatever looks at the rows and the workers alone is untouched by another scan in flight. */
  lemma MoreScans(s: State, scans: multiset<Flight>)
    requires Fenced(s)
    ensures var u := s.(scans := scans); RowsOk(u) && WorkersOk(u) && AdapterOk(u) && EventsOk(u)
  {
    var u := s.(scans := scans);
    forall k | k in u.workers ensures WorkerOk(u, k, u.workers[k]) { assert WorkerOk(s, k, s.workers[k]); }
    forall e | e in u.log ensures EventOk(u, e) { assert EventOk(s, e); }
  }

  lemma ScanReadFenced(p: Policy, s: State, id: nat, c: Closer)
    requires Fenced(s) && Careful(p) && Next(p, s, ScanRead(id, c)).Some?
    ensures Fenced(Next(p, s, ScanRead(id, c)).value)
  {
    var s' := Next(p, s, ScanRead(id, c)).value;
    ReadKeepsInv(p, s, ScanRead(id, c));
    ScanReadScans(p, s, id, c);
    MoreScans(s, s'.scans);
    assert s' == s.(scans := s'.scans);
  }

  lemma SavesFenced(p: Policy, s: State, a: Action)
    requires Fenced(s) && Next(p, s, a).Some? && (a.Save? || a.SaveFailed?)
    ensures Fenced(Next(p, s, a).value)
  {
    var s' := Next(p, s, a).value;
    if SaveRefused(s.db, a.m) {
      WorkerFenced(s, a.m, Free);
    } else {
      DecisionFenced(s, a.m, s'.db.decisions[a.m], WorkerOf(s', a.m));
    }
  }

  lemma OverwriteFenced(p: Policy, s: State, m: nat, agreement: Agreement, automation: Automation)
    requires Fenced(s) && Next(p, s, Overwrite(m, agreement, automation)).Some?
    ensures Fenced(Next(p, s, Overwrite(m, agreement, automation)).value)
  {
    if !SaveRefused(s.db, m) { DecisionFenced(s, m, Overwritten(agreement, automation), Free); }
  }

  lemma CallFenced(p: Policy, s: State, m: nat)
    requires Fenced(s) && Next(p, s, Call(m)).Some?
    ensures Fenced(Next(p, s, Call(m)).value)
  {
    match Gate(s.db, m)
    case Proceed => WorkerFenced(s, m, Gated);
    case FinalizeFirst(i) =>
      GateFinalizes(s.db, m, i);
      WorkerFenced(s, m, Reclaiming(Flight(i, Finalize, s.db.attempts[i])));
    case _ =>
  }

  /** The row the gate would finalize is read as it stands. */
  lemma GateFinalizes(db: Db, m: nat, i: nat)
    requires Gate(db, m) == FinalizeFirst(i)
    ensures i < |db.attempts|
    ensures var f := Flight(i, Finalize, db.attempts[i]); WorkerRows(db, m, Reclaiming(f)) && Unmoved(db, f)
  {
  }

  lemma QuietFenced(p: Policy, s: State, a: Action)
    requires Fenced(s) && Next(p, s, a).Some?
    requires a.Call? || a.ManualCall? || a.Save? || a.SaveFailed? || a.Leave?
    ensures Fenced(Next(p, s, a).value)
  {
    match a
    case Call(m) => CallFenced(p, s, m);
    case ManualCall(m) => WorkerFenced(s, m, Gated);
    case Save(m, g, same) => SavesFenced(p, s, a);
    case SaveFailed(m, automation) => SavesFenced(p, s, a);
    case Leave(m) => WorkerFenced(s, m, Free);
  }

  lemma StepFenced(p: Policy, s: State, a: Action)
    requires Careful(p) && Fenced(s) && Next(p, s, a).Some?
    ensures Fenced(Next(p, s, a).value)
  {
    match a
    case ReclaimWrite(m, now) => ReclaimFenced(p, s, m, now);
    case ClaimLease(m, role, token, now, expiry) => ClaimFenced(p, s, m, role, token, now, expiry);
    case StartSideEffect(m, now) => OwnerActs(p, s, a);
    case CallAdapter(m, writes) => AdapterFenced(p, s, m, writes);
    case RecordEffect(m, status, reason, effect, evidence) => OwnerActs(p, s, a);
    case CloseRead(m, c) => CloseReadFenced(p, s, m, c);
    case CloseWrite(m, now) => OwnerWriteFenced(p, s, m, now);
    case ScanRead(id, c) => ScanReadFenced(p, s, id, c);
    case ScanWrite(f, now) => ScanWriteFenced(s, f, now);
    case ScanNow(id, c, now) => ScanNowFenced(p, s, id, c, now);
    case Overwrite(m, agreement, automation) => OverwriteFenced(p, s, m, agreement, automation);
    case Beat(id, token, expiry) => BeatFenced(s, id, token, expiry);
    case _ => QuietFenced(p, s, a);
  }

  lemma {:induction false} RunFenced(p: Policy, s: State, trace: seq<Action>)
    requires Careful(p) && Fenced(s) && Run(p, s, trace).Some?
    ensures Fenced(Run(p, s, trace).value)
  {
    if trace != [] {
      RunFenced(p, s, trace[..|trace| - 1]);
      StepFenced(p, Run(p, s, trace[..|trace| - 1]).value, trace[|trace| - 1]);
    }
  }

  /** The fence, with scanners that close in one step at any time and split ones that wait for the owner
      to go: the fail-safe never closes an attempt whose adapter is ever called, in either order. */
  lemma FailSafeNeverMeetsTheAdapter(p: Policy, trace: seq<Action>, j: nat, k: nat)
    requires Careful(p) && Run(p, EMPTY, trace).Some?
    requires var log := Run(p, EMPTY, trace).value.log;
      j < |log| && k < |log| && log[j].AdapterCalled? && log[k].ClosedBy? && log[k].closer.FailSafe?
    ensures var log := Run(p, EMPTY, trace).value.log; log[j].id != log[k].id
  {
    RunFenced(p, EMPTY, trace);
    var s := Run(p, EMPTY, trace).value;
    assert EventOk(s, s.log[j]) && EventOk(s, s.log[k]);
  }

  /** ... and a row behind which a request reached the venue never says that nothing was written. */
  lemma WrittenRowsTellTheTruth(p: Policy, trace: seq<Action>, i: nat)
    requires Careful(p) && Run(p, EMPTY, trace).Some? && i in Run(p, EMPTY, trace).value.wrote
    ensures var s := Run(p, EMPTY, trace).value;
      && i < |s.db.attempts| && s.db.attempts[i].startedAt.Some?
      && s.db.attempts[i].status != Claimed && s.db.attempts[i].status != FailedSafe
      && s.db.attempts[i].status != ClosedNoWrite
      && s.db.attempts[i].effect != Some(NotStarted)
  {
    RunFenced(p, EMPTY, trace);
    var s := Run(p, EMPTY, trace).value;
    assert i in s.called && WroteRow(s.db.attempts[i]);
  }

  // ---------------------------------------------------------------- why the owner must have gone

  /** A split closer does what the atomic one would exactly when the row it read still passes its guard
      (the finalizer also publishes the automation it loaded), or when it loses the decision row. */
  lemma SplitCloserIsAtomicIff(db: Db, f: Flight, now: int)
    requires FlightOf(db, f)
    ensures Write(db, f, now) == Close(db, f.id, f.seen.token, f.closer, now) <==>
            || !WriteWins(db, f)
            || (Guard(db.attempts[f.id], f.closer) &&
                (f.closer.Finalize? ==> f.seen.automation == db.attempts[f.id].automation))
  {
    var row := db.attempts[f.id];
    if WriteWins(db, f) {
      var d := db.decisions[row.message];
      assert Write(db, f, now).decisions[row.message] == ClosedDecision(d, f.seen, f.closer);
      assert ClosedDecision(d, f.seen, f.closer) != d;
      if Guard(row, f.closer) {
        assert CanRead(db, f.id, f.seen.token, f.closer);
        var g := Flight(f.id, f.closer, row);
        assert Write(db, g, now).decisions[row.message] == ClosedDecision(d, row, f.closer);
      }
    }
  }
}
