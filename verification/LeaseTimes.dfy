/** What an attempt row says of its own side effect, under any interleaving and any scanners. */
module LeaseTimes {
  import opened Options
  import opened LeaseRows
  import opened LeaseSystem
  import opened LeaseCoupling

  predicate RowTimed(a: Attempt) {
    && (a.status == Claimed ==> a.startedAt == None)
    && (a.status == Executing || a.status == Uncertain ==> a.startedAt.Some?)
    && (a.effect == Some(OutcomeUnknown) <==> a.status == Uncertain)
  }

  predicate RowsTimed(db: Db) { forall i | 0 <= i < |db.attempts| :: RowTimed(db.attempts[i]) }

  /** A freeze in flight has seen a start time, and a start time never goes away. */
  predicate FlightTimed(db: Db, f: Flight) {
    f.id < |db.attempts| && (f.closer.Freeze? ==> db.attempts[f.id].startedAt.Some?)
  }

  predicate WorkerTimed(db: Db, w: Worker) {
    match w
    case Reclaiming(f) => FlightTimed(db, f)
    case Owns(_, _, Some(f)) => FlightTimed(db, f)
    case _ => true
  }

  ghost predicate FlightsTimed(s: State) {
    && (forall f | f in s.scans :: FlightTimed(s.db, f))
    && (forall m | m in s.workers :: WorkerTimed(s.db, s.workers[m]))
  }

  ghost predicate Timed(s: State) { Inv(s) && RowsTimed(s.db) && FlightsTimed(s) }

  predicate KeepsStarts(db: Db, db': Db) {
    |db.attempts| <= |db'.attempts| && forall i | 0 <= i < |db.attempts| ::
      db.attempts[i].startedAt.Some? ==> db'.attempts[i].startedAt.Some?
  }

  /** A step that keeps the rows timed and the start times, and touches one worker and some scans. */
  lemma StillTimed(s: State, s': State, m: nat)
    requires Timed(s) && Inv(s') && RowsTimed(s'.db) && KeepsStarts(s.db, s'.db)
    requires forall k | k in s'.workers && k != m :: k in s.workers && s'.workers[k] == s.workers[k]
    requires m in s'.workers ==> WorkerTimed(s'.db, s'.workers[m])
    requires forall f | f in s'.scans :: f in s.scans || FlightTimed(s'.db, f)
    ensures Timed(s')
  {
    forall f | f in s'.scans ensures FlightTimed(s'.db, f) { if f in s.scans { assert FlightTimed(s.db, f); } }
    forall k | k in s'.workers ensures WorkerTimed(s'.db, s'.workers[k]) {
      if k != m { assert WorkerTimed(s.db, s.workers[k]); }
    }
  }

  lemma WriteTimed(db: Db, f: Flight, now: int)
    requires Coupled(db) && FlightOf(db, f) && RowsTimed(db) && FlightTimed(db, f)
    ensures RowsTimed(Write(db, f, now)) && KeepsStarts(db, Write(db, f, now))
  {
    if WriteWins(db, f) { WinnerClosesActiveRow(db, f); }
  }

  lemma WorkerFlightTimed(s: State, m: nat, f: Flight)
    requires Timed(s)
    requires var w := WorkerOf(s, m); w == Reclaiming(f) || (w.Owns? && w.closing == Some(f))
    ensures FlightOf(s.db, f) && FlightTimed(s.db, f)
  {
    assert WorkerRows(s.db, m, WorkerOf(s, m)) && WorkerTimed(s.db, WorkerOf(s, m));
  }

  lemma WritesTimed(p: Policy, s: State, a: Action)
    requires Timed(s) && Next(p, s, a).Some? && (a.ReclaimWrite? || a.CloseWrite?)
    ensures Timed(Next(p, s, a).value)
  {
    var w := WorkerOf(s, a.m);
    var f := if w.Reclaiming? then w.reclaim else w.closing.value;
    StepKeepsInv(p, s, a);
    WorkerFlightTimed(s, a.m, f);
    WriteTimed(s.db, f, a.now);
    StillTimed(s, Next(p, s, a).value, a.m);
  }

  lemma FlightsStayTimed(s: State, s': State)
    requires FlightsTimed(s) && KeepsStarts(s.db, s'.db) && s'.workers == s.workers && s'.scans <= s.scans
    ensures FlightsTimed(s')
  {
    forall f | f in s'.scans ensures FlightTimed(s'.db, f) { assert f in s.scans && FlightTimed(s.db, f); }
    forall k | k in s'.workers ensures WorkerTimed(s'.db, s'.workers[k]) { assert WorkerTimed(s.db, s.workers[k]); }
  }

  lemma ScanWriteTimed(p: Policy, s: State, f: Flight, now: int)
    requires Timed(s) && f in s.scans
    ensures Timed(Next(p, s, ScanWrite(f, now)).value)
  {
    StepKeepsInv(p, s, ScanWrite(f, now));
    assert FlightOf(s.db, f) && FlightTimed(s.db, f);
    WriteTimed(s.db, f, now);
    FlightsStayTimed(s, WriteStep(s.(scans := s.scans - multiset{f}), f, now));
  }

  lemma ScanNowTimed(p: Policy, s: State, id: nat, c: Closer, now: int)
    requires Timed(s) && Next(p, s, ScanNow(id, c, now)).Some?
    ensures Timed(Next(p, s, ScanNow(id, c, now)).value)
  {
    var row := s.db.attempts[id];
    if CanRead(s.db, id, row.token, c) {
      StepKeepsInv(p, s, ScanNow(id, c, now));
      WriteTimed(s.db, Flight(id, c, row), now);
      FlightsStayTimed(s, WriteStep(s, Flight(id, c, row), now));
    }
  }

  /** The attempt rows stay as they are; one worker may change, to one with timed flights. */
  lemma SameRowsTimed(s: State, s': State, m: nat)
    requires Timed(s) && Inv(s') && s'.db.attempts == s.db.attempts && s'.scans == s.scans
    requires s'.workers == s.workers || exists w :: WorkerTimed(s.db, w) && s'.workers == s.workers[m := w]
    ensures Timed(s')
  {
    StillTimed(s, s', m);
  }

  lemma ScanReadTimed(p: Policy, s: State, id: nat, c: Closer)
    requires Timed(s) && Next(p, s, ScanRead(id, c)).Some?
    ensures Timed(Next(p, s, ScanRead(id, c)).value)
  {
    StepKeepsInv(p, s, ScanRead(id, c));
    var row := s.db.attempts[id];
    if CanRead(s.db, id, row.token, c) {
      assert FlightTimed(s.db, Flight(id, c, row));
      StillTimed(s, s.(scans := s.scans + multiset{Flight(id, c, row)}), 0);
    }
  }

  lemma CloseReadTimed(p: Policy, s: State, m: nat, c: Closer)
    requires Timed(s) && Next(p, s, CloseRead(m, c)).Some?
    ensures Timed(Next(p, s, CloseRead(m, c)).value)
  {
    var s' := Next(p, s, CloseRead(m, c)).value;
    StepKeepsInv(p, s, CloseRead(m, c));
    assert WorkerTimed(s.db, WorkerOf(s', m));
    SameRowsTimed(s, s', m);
  }

  lemma ClaimTimed(p: Policy, s: State, a: Action)
    requires Timed(s) && Next(p, s, a).Some? && a.ClaimLease?
    ensures Timed(Next(p, s, a).value)
  {
    var s' := Next(p, s, a).value;
    StepKeepsInv(p, s, a);
    StillTimed(s, s', a.m);
  }

  lemma RowTimedAgain(db: Db, id: nat, row: Attempt)
    requires RowsTimed(db) && id < |db.attempts| && RowTimed(row) &&
      (db.attempts[id].startedAt.Some? ==> row.startedAt.Some?)
    ensures RowsTimed(SetRow(db, id, row)) && KeepsStarts(db, SetRow(db, id, row))
  {
  }

  lemma OwnerTimed(p: Policy, s: State, a: Action)
    requires Timed(s) && Next(p, s, a).Some? && (a.StartSideEffect? || a.RecordEffect?)
    ensures Timed(Next(p, s, a).value)
  {
    var s' := Next(p, s, a).value;
    StepKeepsInv(p, s, a);
    var id := WorkerOf(s, a.m).id;
    assert RowTimed(s.db.attempts[id]);
    RowTimedAgain(s.db, id, s'.db.attempts[id]);
    StillTimed(s, s', a.m);
  }

  lemma CallTimed(p: Policy, s: State, m: nat)
    requires Timed(s) && Next(p, s, Call(m)).Some?
    ensures Timed(Next(p, s, Call(m)).value)
  {
    var s' := Next(p, s, Call(m)).value;
    StepKeepsInv(p, s, Call(m));
    if s' != s {
      assert WorkerTimed(s.db, WorkerOf(s', m));
      SameRowsTimed(s, s', m);
    }
  }

  lemma DecisionTimed(p: Policy, s: State, a: Action)
    requires Timed(s) && Next(p, s, a).Some? && (a.Save? || a.SaveFailed? || a.Overwrite?)
    ensures Timed(Next(p, s, a).value)
  {
    var s' := Next(p, s, a).value;
    StepKeepsInv(p, s, a);
    if s' != s {
      assert WorkerTimed(s.db, WorkerOf(s', a.m));
      SameRowsTimed(s, s', a.m);
    }
  }

  lemma WorkerOnlyTimed(p: Policy, s: State, a: Action)
    requires Timed(s) && Next(p, s, a).Some? && (a.ManualCall? || a.CallAdapter? || a.Leave?)
    ensures Timed(Next(p, s, a).value)
  {
    var s' := Next(p, s, a).value;
    StepKeepsInv(p, s, a);
    assert WorkerTimed(s.db, WorkerOf(s', a.m));
    SameRowsTimed(s, s', a.m);
  }

  lemma BeatTimed(p: Policy, s: State, id: nat, token: nat, expiry: int)
    requires Timed(s)
    ensures Timed(Next(p, s, Beat(id, token, expiry)).value)
  {
    StepKeepsInv(p, s, Beat(id, token, expiry));
    if CanHeartbeat(s.db, id, token) {
      var row := s.db.attempts[id].(leaseExpiresAt := expiry);
      assert RowTimed(s.db.attempts[id]);
      RowTimedAgain(s.db, id, row);
      StillTimed(s, s.(db := SetRow(s.db, id, row)), 0);
    }
  }

  lemma StepTimed(p: Policy, s: State, a: Action)
    requires Timed(s) && Next(p, s, a).Some?
    ensures Timed(Next(p, s, a).value)
  {
    match a
    case ReclaimWrite(_, _) => WritesTimed(p, s, a);
    case CloseWrite(_, _) => WritesTimed(p, s, a);
    case ScanWrite(f, now) => ScanWriteTimed(p, s, f, now);
    case ScanNow(id, c, now) => ScanNowTimed(p, s, id, c, now);
    case ScanRead(id, c) => ScanReadTimed(p, s, id, c);
    case CloseRead(m, c) => CloseReadTimed(p, s, m, c);
    case ClaimLease(_, _, _, _, _) => ClaimTimed(p, s, a);
    case StartSideEffect(_, _) => OwnerTimed(p, s, a);
    case RecordEffect(_, _, _, _, _) => OwnerTimed(p, s, a);
    case Call(m) => CallTimed(p, s, m);
    case Save(_, _, _) => DecisionTimed(p, s, a);
    case SaveFailed(_, _) => DecisionTimed(p, s, a);
    case Overwrite(_, _, _) => DecisionTimed(p, s, a);
    case Beat(id, token, expiry) => BeatTimed(p, s, id, token, expiry);
    case _ => WorkerOnlyTimed(p, s, a);
  }

  lemma {:induction false} RunTimed(p: Policy, s: State, trace: seq<Action>)
    requires Timed(s) && Run(p, s, trace).Some?
    ensures Timed(Run(p, s, trace).value)
  {
    if trace != [] {
      RunTimed(p, s, trace[..|trace| - 1]);
      StepTimed(p, Run(p, s, trace[..|trace| - 1]).value, trace[|trace| - 1]);
    }
  }

  /** Under any interleaving, with split scanners at any time: a claimed row has no side-effect time,
      executing and uncertain ones have, and exactly the uncertain ones have an unknown outcome. */
  lemma RowsTellTheTruth(p: Policy, trace: seq<Action>, i: nat)
    requires Run(p, EMPTY, trace).Some? && i < |Run(p, EMPTY, trace).value.db.attempts|
    ensures var row := Run(p, EMPTY, trace).value.db.attempts[i];
      && (row.status == Claimed ==> row.startedAt == None)
      && (row.status == Executing || row.status == Uncertain ==> row.startedAt.Some?)
      && (row.effect == Some(OutcomeUnknown) <==> row.status == Uncertain)
  {
    RunTimed(p, EMPTY, trace);
    assert RowTimed(Run(p, EMPTY, trace).value.db.attempts[i]);
  }
}
