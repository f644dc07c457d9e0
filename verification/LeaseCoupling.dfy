/** What holds under any interleaving at all: no policy on scanners, manual calls
    allowed, every closer split in two. */
module LeaseCoupling {
  import opened Options
  import opened LeaseRows
  import opened LeaseSystem

  // ---------------------------------------------------------------- the coupling of the two rows

  ghost predicate UniqueRows(db: Db) {
    forall i, j | 0 <= i < j < |db.attempts| ::
      && db.attempts[i].token != db.attempts[j].token
      && !(db.attempts[i].message == db.attempts[j].message && db.attempts[i].generation == db.attempts[j].generation)
  }

  ghost predicate ActiveRow(db: Db, i: nat, m: nat, g: nat) {
    i < |db.attempts| && db.attempts[i].message == m && db.attempts[i].generation == g && Active(db.attempts[i].status)
  }

  ghost predicate HasActive(db: Db, m: nat)
    requires m in db.decisions
  {
    db.decisions[m].token.Some? && exists i :: ActiveRow(db, i, m, db.decisions[m].token.value)
  }

  ghost predicate Coupled(db: Db) {
    && UniqueRows(db)
    && (forall i | 0 <= i < |db.attempts| :: Active(db.attempts[i].status) ==>
          Running(db, db.attempts[i].message, db.attempts[i].generation))
    && (forall m | m in db.decisions && db.decisions[m].status == ExecutionRunning :: HasActive(db, m))
  }

  /** A flight is the row its closer loaded: same id, same immutable columns, its guard passed. */
  ghost predicate FlightOf(db: Db, f: Flight) {
    && f.id < |db.attempts|
    && f.seen.message == db.attempts[f.id].message
    && f.seen.generation == db.attempts[f.id].generation
    && f.seen.token == db.attempts[f.id].token
    && WellFormed(f.closer)
    && Guard(f.seen, f.closer)
  }

  ghost predicate WorkerRows(db: Db, m: nat, w: Worker) {
    match w
    case Reclaiming(f) => FlightOf(db, f) && f.closer.Finalize? && f.seen.message == m
    case Owns(id, _, closing) =>
      && id < |db.attempts| && db.attempts[id].message == m
      && (closing.Some? ==> FlightOf(db, closing.value) && closing.value.id == id)
    case _ => true
  }

  /** Every logged closure left its row terminal, and names the row it closed. */
  ghost predicate Logged(db: Db, e: Event) {
    && e.id < |db.attempts|
    && (e.ClosedBy? ==> && db.attempts[e.id].message == e.message
                        && db.attempts[e.id].generation == e.generation
                        && !Active(db.attempts[e.id].status))
  }

  ghost predicate ClosedOnce(log: seq<Event>) {
    forall j, k | 0 <= j < k < |log| :: log[j].ClosedBy? && log[k].ClosedBy? ==> log[j].id != log[k].id
  }

  ghost predicate Inv(s: State) {
    && Coupled(s.db)
    && (forall f | f in s.scans :: FlightOf(s.db, f))
    && (forall m | m in s.workers :: WorkerRows(s.db, m, s.workers[m]))
    && (forall e | e in s.log :: Logged(s.db, e))
    && ClosedOnce(s.log)
  }

  // ---------------------------------------------------------------- each operation keeps the coupling

  lemma ClaimCoupled(db: Db, m: nat, g: nat, role: Role, token: nat, now: int, expiry: int)
    requires Coupled(db)
    ensures Coupled(Claim(db, m, g, role, token, now, expiry))
  {
    var db' := Claim(db, m, g, role, token, now, expiry);
    if db' != db {
      assert ActiveRow(db', |db.attempts|, m, g);
      forall k | k in db'.decisions && db'.decisions[k].status == ExecutionRunning
        ensures HasActive(db', k)
      {
        if k != m {
          var i :| ActiveRow(db, i, k, db.decisions[k].token.value);
          assert ActiveRow(db', i, k, db.decisions[k].token.value);
        }
      }
    }
  }

  /** Replacing an active row by an active row with the same identity. */
  lemma StayActiveCoupled(db: Db, id: nat, row: Attempt)
    requires Coupled(db) && id < |db.attempts| && Active(db.attempts[id].status) && Active(row.status)
    requires row.message == db.attempts[id].message && row.generation == db.attempts[id].generation
    requires row.token == db.attempts[id].token
    ensures Coupled(SetRow(db, id, row))
  {
    var db' := SetRow(db, id, row);
    forall k | k in db'.decisions && db'.decisions[k].status == ExecutionRunning
      ensures HasActive(db', k)
    {
      var i :| ActiveRow(db, i, k, db.decisions[k].token.value);
      assert ActiveRow(db', i, k, db.decisions[k].token.value);
    }
  }

  /** A won write closes the one active row of the running generation. */
  lemma WinnerClosesActiveRow(db: Db, f: Flight)
    requires Coupled(db) && FlightOf(db, f) && WriteWins(db, f)
    ensures Active(db.attempts[f.id].status)
  {
    assert HasActive(db, f.seen.message);
    var i: nat :| ActiveRow(db, i, f.seen.message, f.seen.generation);
    if i < f.id { } else if f.id < i { }
  }

  lemma WriteKeepsActive(db: Db, f: Flight, now: int, k: nat)
    requires Coupled(db) && FlightOf(db, f) && WriteWins(db, f)
    requires k in Write(db, f, now).decisions && Write(db, f, now).decisions[k].status == ExecutionRunning
    ensures HasActive(Write(db, f, now), k)
  {
    WinnerClosesActiveRow(db, f);
    assert k != f.seen.message;
    var i :| ActiveRow(db, i, k, db.decisions[k].token.value);
    assert ActiveRow(Write(db, f, now), i, k, db.decisions[k].token.value);
  }

  lemma WriteKeepsRunning(db: Db, f: Flight, now: int, i: nat)
    requires Coupled(db) && FlightOf(db, f) && WriteWins(db, f)
    requires i < |Write(db, f, now).attempts| && Active(Write(db, f, now).attempts[i].status)
    ensures Running(Write(db, f, now), Write(db, f, now).attempts[i].message, Write(db, f, now).attempts[i].generation)
  {
    WinnerClosesActiveRow(db, f);
    assert Running(db, db.attempts[i].message, db.attempts[i].generation);
    if i < f.id { } else if f.id < i { }
  }

  lemma WriteKeepsUnique(db: Db, f: Flight, now: int)
    requires UniqueRows(db) && FlightOf(db, f)
    ensures UniqueRows(Write(db, f, now))
  {
  }

  lemma WriteCoupled(db: Db, f: Flight, now: int)
    requires Coupled(db) && FlightOf(db, f)
    ensures Coupled(Write(db, f, now))
  {
    if WriteWins(db, f) {
      var db' := Write(db, f, now);
      WriteKeepsUnique(db, f, now);
      forall i | 0 <= i < |db'.attempts| && Active(db'.attempts[i].status)
        ensures Running(db', db'.attempts[i].message, db'.attempts[i].generation)
      {
        WriteKeepsRunning(db, f, now, i);
      }
      forall k | k in db'.decisions && db'.decisions[k].status == ExecutionRunning
        ensures HasActive(db', k)
      {
        WriteKeepsActive(db, f, now, k);
      }
    }
  }

  lemma SaveCoupled(db: Db, m: nat, d: Decision)
    requires Coupled(db) && !SaveRefused(db, m) && d.status != ExecutionRunning
    ensures Coupled(db.(decisions := db.decisions[m := d]))
  {
    var db' := db.(decisions := db.decisions[m := d]);
    forall k | k in db'.decisions && db'.decisions[k].status == ExecutionRunning
      ensures HasActive(db', k)
    {
      var i :| ActiveRow(db, i, k, db.decisions[k].token.value);
      assert ActiveRow(db', i, k, db.decisions[k].token.value);
    }
  }

  /** Rows keep their identity, and terminal rows never change. */
  ghost predicate Extends(db: Db, db': Db) {
    && |db.attempts| <= |db'.attempts|
    && (forall i | 0 <= i < |db.attempts| ::
          && db'.attempts[i].message == db.attempts[i].message
          && db'.attempts[i].generation == db.attempts[i].generation
          && db'.attempts[i].token == db.attempts[i].token
          && (!Active(db.attempts[i].status) ==> db'.attempts[i] == db.attempts[i]))
  }

  lemma InvExtends(s: State, db': Db)
    requires Inv(s) && Coupled(db') && Extends(s.db, db')
    ensures Inv(s.(db := db'))
  {
  }

  lemma WriteExtends(db: Db, f: Flight, now: int)
    requires Coupled(db) && FlightOf(db, f)
    ensures Extends(db, Write(db, f, now))
    ensures WriteWins(db, f) ==> !Active(Write(db, f, now).attempts[f.id].status)
  {
    if WriteWins(db, f) { WinnerClosesActiveRow(db, f); }
  }

  lemma InvWorker(s: State, m: nat, w: Worker)
    requires Inv(s) && WorkerRows(s.db, m, w)
    ensures Inv(SetWorker(s, m, w))
  {
  }

  lemma WriteKeepsInv(s: State, f: Flight, now: int)
    requires Inv(s) && FlightOf(s.db, f)
    ensures Inv(WriteStep(s, f, now)) && Extends(s.db, WriteStep(s, f, now).db)
  {
    WriteCoupled(s.db, f, now);
    WriteExtends(s.db, f, now);
    InvExtends(s, Write(s.db, f, now));
    if WriteWins(s.db, f) {
      forall e | e in s.log ensures e.ClosedBy? ==> e.id != f.id {
        assert Logged(s.db, e);
        WinnerClosesActiveRow(s.db, f);
      }
      LogOne(s.(db := Write(s.db, f, now)), ClosedBy(f.id, f.closer, f.seen.message, f.seen.generation));
    }
  }

  lemma LogOne(s: State, e: Event)
    requires Inv(s) && Logged(s.db, e)
    requires e.ClosedBy? ==> forall d | d in s.log :: d.ClosedBy? ==> d.id != e.id
    ensures Inv(s.(log := s.log + [e]))
  {
  }

  lemma InvDb(s: State, db': Db, m: nat, w: Worker)
    requires Inv(s) && Coupled(db') && Extends(s.db, db') && WorkerRows(db', m, w)
    ensures Inv(SetWorker(s.(db := db'), m, w))
  {
    InvExtends(s, db');
    InvWorker(s.(db := db'), m, w);
  }

  lemma SaveKeepsInv(s: State, m: nat, d: Decision, w: Worker)
    requires Inv(s) && !SaveRefused(s.db, m) && d.status != ExecutionRunning && (w.Free? || w.Saved?)
    ensures Inv(SetWorker(s.(db := s.db.(decisions := s.db.decisions[m := d])), m, w))
  {
    SaveCoupled(s.db, m, d);
    InvDb(s, s.db.(decisions := s.db.decisions[m := d]), m, w);
  }

  lemma RowKeepsInv(s: State, m: nat, w: Worker, id: nat, row: Attempt)
    requires Inv(s) && WorkerRows(s.db, m, w)
    requires id < |s.db.attempts| && Active(s.db.attempts[id].status) && Active(row.status)
    requires row.message == s.db.attempts[id].message && row.generation == s.db.attempts[id].generation
    requires row.token == s.db.attempts[id].token
    ensures Inv(SetWorker(s.(db := SetRow(s.db, id, row)), m, w)) && Extends(s.db, SetRow(s.db, id, row))
  {
    StayActiveCoupled(s.db, id, row);
    InvDb(s, SetRow(s.db, id, row), m, w);
  }

  lemma StepKeepsInv(p: Policy, s: State, a: Action)
    requires Inv(s) && Next(p, s, a).Some?
    ensures Inv(Next(p, s, a).value) && Extends(s.db, Next(p, s, a).value.db)
  {
    match a
    case ReclaimWrite(m, now) => WritesKeepInv(p, s, a);
    case CloseWrite(m, now) => WritesKeepInv(p, s, a);
    case ScanWrite(f, now) => WritesKeepInv(p, s, a);
    case ScanNow(id, c, now) => WritesKeepInv(p, s, a);
    case ScanRead(id, c) => ReadKeepsInv(p, s, a);
    case CloseRead(m, c) => ReadKeepsInv(p, s, a);
    case ClaimLease(m, role, token, now, expiry) => RowsKeepInv(p, s, a);
    case StartSideEffect(m, now) => RowsKeepInv(p, s, a);
    case RecordEffect(m, status, reason, effect, evidence) => RowsKeepInv(p, s, a);
    case Beat(id, token, expiry) => RowsKeepInv(p, s, a);
    case _ => OtherKeepsInv(p, s, a);
  }

  lemma WritesKeepInv(p: Policy, s: State, a: Action)
    requires Inv(s) && Next(p, s, a).Some? && (a.ReclaimWrite? || a.CloseWrite? || a.ScanWrite? || a.ScanNow?)
    ensures Inv(Next(p, s, a).value) && Extends(s.db, Next(p, s, a).value.db)
  {
    match a
    case ReclaimWrite(m, now) => WorkerWrites(p, s, m, now);
    case CloseWrite(m, now) => WorkerWrites(p, s, m, now);
    case ScanWrite(f, now) => WriteKeepsInv(s.(scans := s.scans - multiset{f}), f, now);
    case ScanNow(id, c, now) => ScanNowKeepsInv(p, s, id, c, now);
  }

  lemma RowsKeepInv(p: Policy, s: State, a: Action)
    requires Inv(s) && Next(p, s, a).Some? && (a.ClaimLease? || a.StartSideEffect? || a.RecordEffect? || a.Beat?)
    ensures Inv(Next(p, s, a).value) && Extends(s.db, Next(p, s, a).value.db)
  {
    match a
    case ClaimLease(m, role, token, now, expiry) => ClaimKeepsInv(p, s, m, role, token, now, expiry);
    case StartSideEffect(m, now) => ActiveKeepsInv(p, s, a);
    case RecordEffect(m, status, reason, effect, evidence) => ActiveKeepsInv(p, s, a);
    case Beat(id, token, expiry) => BeatKeepsInv(s, id, token, expiry);
  }

  lemma ScanNowKeepsInv(p: Policy, s: State, id: nat, c: Closer, now: int)
    requires Inv(s) && Next(p, s, ScanNow(id, c, now)).Some?
    ensures var s' := Next(p, s, ScanNow(id, c, now)).value; Inv(s') && Extends(s.db, s'.db)
  {
    var row := s.db.attempts[id];
    if CanRead(s.db, id, row.token, c) { WriteKeepsInv(s, Flight(id, c, row), now); }
  }

  lemma OverwriteKeepsInv(p: Policy, s: State, m: nat, agreement: Agreement, automation: Automation)
    requires Inv(s) && Next(p, s, Overwrite(m, agreement, automation)).Some?
    ensures var s' := Next(p, s, Overwrite(m, agreement, automation)).value; Inv(s') && Extends(s.db, s'.db)
  {
    if !SaveRefused(s.db, m) { SaveKeepsInv(s, m, Overwritten(agreement, automation), Free); }
  }

  lemma WorkerWrites(p: Policy, s: State, m: nat, now: int)
    requires Inv(s)
    ensures Next(p, s, ReclaimWrite(m, now)).Some? ==>
      var s' := Next(p, s, ReclaimWrite(m, now)).value; Inv(s') && Extends(s.db, s'.db)
    ensures Next(p, s, CloseWrite(m, now)).Some? ==>
      var s' := Next(p, s, CloseWrite(m, now)).value; Inv(s') && Extends(s.db, s'.db)
  {
    var w := WorkerOf(s, m);
    if w.Reclaiming? {
      WriteKeepsInv(s, w.reclaim, now);
      var u := WriteStep(s, w.reclaim, now);
      InvWorker(u, m, if Gate(u.db, m) == Proceed then Gated else Free);
    } else if w.Owns? && w.closing.Some? {
      WriteKeepsInv(s, w.closing.value, now);
      InvWorker(WriteStep(s, w.closing.value, now), m, Owns(w.id, Past, None));
    }
  }

  lemma ReadKeepsInv(p: Policy, s: State, a: Action)
    requires Inv(s) && Next(p, s, a).Some? && (a.ScanRead? || a.CloseRead?)
    ensures Inv(Next(p, s, a).value) && Extends(s.db, Next(p, s, a).value.db)
  {
    if a.CloseRead? {
      var w := WorkerOf(s, a.m);
      var w' := WorkerOf(Next(p, s, a).value, a.m);
      assert w'.closing.Some? ==> FlightOf(s.db, w'.closing.value);
      InvWorker(s, a.m, w');
    }
  }

  lemma ClaimKeepsInv(p: Policy, s: State, m: nat, role: Role, token: nat, now: int, expiry: int)
    requires Inv(s) && WorkerOf(s, m).Saved?
    ensures var s' := Next(p, s, ClaimLease(m, role, token, now, expiry)).value; Inv(s') && Extends(s.db, s'.db)
  {
    var g := WorkerOf(s, m).generation;
    ClaimCoupled(s.db, m, g, role, token, now, expiry);
    var db' := Claim(s.db, m, g, role, token, now, expiry);
    var r := ClaimOutcome(s.db, m, g, role, token, now, expiry);
    InvDb(s, db', m, if r.Granted? then Owns(r.id, Fresh, None) else Free);
  }

  lemma ActiveKeepsInv(p: Policy, s: State, a: Action)
    requires Inv(s) && Next(p, s, a).Some? && (a.StartSideEffect? || a.RecordEffect?)
    ensures Inv(Next(p, s, a).value) && Extends(s.db, Next(p, s, a).value.db)
  {
    var w := WorkerOf(s, a.m);
    var s' := Next(p, s, a).value;
    var w' := WorkerOf(s', a.m);
    assert WorkerRows(s.db, a.m, w');
    if s'.db == s.db {
      InvWorker(s, a.m, w');
    } else {
      RowKeepsInv(s, a.m, w', w.id, s'.db.attempts[w.id]);
    }
  }

  lemma BeatKeepsInv(s: State, id: nat, token: nat, expiry: int)
    requires Inv(s)
    ensures var db' := Heartbeat(s.db, id, token, expiry); Inv(s.(db := db')) && Extends(s.db, db')
  {
    if CanHeartbeat(s.db, id, token) {
      StayActiveCoupled(s.db, id, s.db.attempts[id].(leaseExpiresAt := expiry));
      InvExtends(s, Heartbeat(s.db, id, token, expiry));
    }
  }

  lemma SavesKeepInv(p: Policy, s: State, a: Action)
    requires Inv(s) && Next(p, s, a).Some? && (a.Save? || a.SaveFailed?)
    ensures Inv(Next(p, s, a).value) && Extends(s.db, Next(p, s, a).value.db)
  {
    var s' := Next(p, s, a).value;
    if SaveRefused(s.db, a.m) {
      InvWorker(s, a.m, Free);
    } else {
      SaveKeepsInv(s, a.m, s'.db.decisions[a.m], WorkerOf(s', a.m));
    }
  }

  lemma CallKeepsInv(p: Policy, s: State, m: nat)
    requires Inv(s) && Next(p, s, Call(m)).Some?
    ensures var s' := Next(p, s, Call(m)).value; Inv(s') && Extends(s.db, s'.db)
  {
    var s' := Next(p, s, Call(m)).value;
    if s' != s { InvWorker(s, m, WorkerOf(s', m)); }
  }

  lemma AdapterKeepsInv(p: Policy, s: State, m: nat, writes: bool)
    requires Inv(s) && Next(p, s, CallAdapter(m, writes)).Some?
    ensures var s' := Next(p, s, CallAdapter(m, writes)).value; Inv(s') && Extends(s.db, s'.db)
  {
    var w := WorkerOf(Next(p, s, CallAdapter(m, writes)).value, m);
    InvWorker(s, m, w);
    LogOne(SetWorker(s, m, w), AdapterCalled(w.id));
  }

  lemma OtherKeepsInv(p: Policy, s: State, a: Action)
    requires Inv(s) && Next(p, s, a).Some?
    requires a.Call? || a.ManualCall? || a.Save? || a.SaveFailed? || a.CallAdapter? || a.Overwrite? || a.Leave?
    ensures Inv(Next(p, s, a).value) && Extends(s.db, Next(p, s, a).value.db)
  {
    match a
    case Save(m, g, same) => SavesKeepInv(p, s, a);
    case SaveFailed(m, automation) => SavesKeepInv(p, s, a);
    case CallAdapter(m, writes) => AdapterKeepsInv(p, s, m, writes);
    case Overwrite(m, agreement, automation) => OverwriteKeepsInv(p, s, m, agreement, automation);
    case Call(m) => CallKeepsInv(p, s, m);
    case ManualCall(m) => InvWorker(s, m, Gated);
    case Leave(m) => InvWorker(s, m, Free);
  }

  lemma {:induction false} RunKeepsInv(p: Policy, s: State, trace: seq<Action>)
    requires Inv(s) && Run(p, s, trace).Some?
    ensures Inv(Run(p, s, trace).value) && Extends(s.db, Run(p, s, trace).value.db)
  {
    if trace != [] {
      RunKeepsInv(p, s, trace[..|trace| - 1]);
      StepKeepsInv(p, Run(p, s, trace[..|trace| - 1]).value, trace[|trace| - 1]);
    }
  }

  // ---------------------------------------------------------------- the theorems

  /** In every reachable state a decision runs a generation exactly when one attempt of it is active. */
  lemma RunningExactlyWhileOneActive(p: Policy, trace: seq<Action>, m: nat, g: nat)
    requires Run(p, EMPTY, trace).Some?
    ensures var db := Run(p, EMPTY, trace).value.db;
      && (Running(db, m, g) <==> exists i :: ActiveRow(db, i, m, g))
      && (forall i, j :: ActiveRow(db, i, m, g) && ActiveRow(db, j, m, g) ==> i == j)
  {
    RunKeepsInv(p, EMPTY, trace);
    var db := Run(p, EMPTY, trace).value.db;
    if Running(db, m, g) { assert HasActive(db, m); }
    forall i, j | ActiveRow(db, i, m, g) && ActiveRow(db, j, m, g) ensures i == j {
      if i < j { } else if j < i { }
    }
  }

  /** A terminal attempt never changes again, whatever runs next. */
  lemma TerminalForever(p: Policy, trace: seq<Action>, more: seq<Action>, i: nat)
    requires Run(p, EMPTY, trace).Some?
    requires Run(p, Run(p, EMPTY, trace).value, more).Some?
    requires var db := Run(p, EMPTY, trace).value.db; i < |db.attempts| && !Active(db.attempts[i].status)
    ensures var later := Run(p, Run(p, EMPTY, trace).value, more).value.db;
      i < |later.attempts| && later.attempts[i] == Run(p, EMPTY, trace).value.db.attempts[i]
  {
    RunKeepsInv(p, EMPTY, trace);
    RunKeepsInv(p, Run(p, EMPTY, trace).value, more);
  }

  /** At most one of the five closers ever wins a generation, however their halves interleave,
      and each win hit the very row it had read. */
  lemma AtMostOneCloserPerGeneration(p: Policy, trace: seq<Action>, j: nat, k: nat)
    requires Run(p, EMPTY, trace).Some?
    requires j < |Run(p, EMPTY, trace).value.log| && k < |Run(p, EMPTY, trace).value.log|
    requires Run(p, EMPTY, trace).value.log[j].ClosedBy? && Run(p, EMPTY, trace).value.log[k].ClosedBy?
    ensures var s := Run(p, EMPTY, trace).value;
      var a, b := s.log[j], s.log[k];
      && (a.message == b.message && a.generation == b.generation ==> j == k)
      && a.id < |s.db.attempts|
      && s.db.attempts[a.id].message == a.message && s.db.attempts[a.id].generation == a.generation
      && !Active(s.db.attempts[a.id].status)
  {
    RunKeepsInv(p, EMPTY, trace);
    var s := Run(p, EMPTY, trace).value;
    var a, b := s.log[j], s.log[k];
    assert Logged(s.db, a) && Logged(s.db, b);
    if a.id < b.id { } else if b.id < a.id { } else if j < k { } else if k < j { }
  }

  lemma StaleWriteMisses(db: Db, f: Flight, now: int)
    requires Coupled(db) && FlightOf(db, f)
    ensures var db' := Write(db, f, now);
      && |db'.attempts| == |db.attempts|
      && (!Running(db, f.seen.message, f.seen.generation) ==> db' == db)
      && (forall i | 0 <= i < |db.attempts| && db'.attempts[i] != db.attempts[i] ::
            && db.attempts[i].message == f.seen.message && db.attempts[i].generation == f.seen.generation
            && Active(db.attempts[i].status) && !Active(db'.attempts[i].status))
      && (forall m, g | m != f.seen.message || g != f.seen.generation :: Running(db', m, g) <==> Running(db, m, g))
  {
    if WriteWins(db, f) { WinnerClosesActiveRow(db, f); WriteExtends(db, f, now); }
  }

  /** A stale closer changes nothing but the generation it read: a later generation is out of its reach. */
  lemma StaleCloserMissesLaterGeneration(p: Policy, trace: seq<Action>, f: Flight, now: int)
    requires Run(p, EMPTY, trace).Some? && f in Run(p, EMPTY, trace).value.scans
    ensures var db := Run(p, EMPTY, trace).value.db;
      var db' := Write(db, f, now);
      && (!Running(db, f.seen.message, f.seen.generation) ==> db' == db)
      && (forall i | 0 <= i < |db.attempts| && db'.attempts[i] != db.attempts[i] ::
            && db.attempts[i].message == f.seen.message && db.attempts[i].generation == f.seen.generation
            && Active(db.attempts[i].status) && !Active(db'.attempts[i].status))
      && (forall m, g | m != f.seen.message || g != f.seen.generation :: Running(db', m, g) <==> Running(db, m, g))
  {
    RunKeepsInv(p, EMPTY, trace);
    StaleWriteMisses(Run(p, EMPTY, trace).value.db, f, now);
  }
}
