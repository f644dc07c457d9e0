/** Three concrete runs: what goes wrong without each of the three conditions. */
module LeaseWitness {
  import opened Options
  import opened LeaseRows
  import opened LeaseSystem

  const ROGUE_SCANNER := Policy(Anytime, true, true)
  const MANUAL_RETRY := Policy(Never, false, true)
  const OVERWRITER := Policy(Never, true, false)

  function Row(g: nat, status: AttemptStatus, startedAt: Option<int>): Attempt {
    NewAttempt(0, g, g, 1).(status := status, startedAt := startedAt)
  }

  /** A run that has come to these rows, this worker and these writes for message 0. */
  ghost predicate At(p: Policy, trace: seq<Action>, rows: seq<Attempt>, w: Worker, wrote: set<nat>) {
    match Run(p, EMPTY, trace)
    case None => false
    case Some(s) => s.db.attempts == rows && WorkerOf(s, 0) == w && s.wrote == wrote
  }

  ghost function End(p: Policy, trace: seq<Action>): State
    requires Run(p, EMPTY, trace).Some?
  {
    Run(p, EMPTY, trace).value
  }

  /** From an open gate to a claimed attempt. */
  lemma ToClaimed(p: Policy, trace: seq<Action>, rows: seq<Attempt>, wrote: set<nat>, g: nat)
    returns (longer: seq<Action>)
    requires At(p, trace, rows, Gated, wrote) && !SaveRefused(End(p, trace).db, 0)
    requires Insertable(Db(map[], rows), 0, g, g)
    ensures At(p, longer, rows + [Row(g, Claimed, None)], Owns(|rows|, Fresh, None), wrote)
    ensures Running(End(p, longer).db, 0, g)
  {
    longer := trace + [Save(0, g, false)];
    RunSnoc(p, EMPTY, trace, Save(0, g, false));
    assert At(p, longer, rows, Saved(g), wrote);
    RunSnoc(p, EMPTY, longer, ClaimLease(0, Worker, g, 0, 1));
    longer := longer + [ClaimLease(0, Worker, g, 0, 1)];
  }

  lemma ToBoundary(p: Policy, trace: seq<Action>, rows: seq<Attempt>, wrote: set<nat>, g: nat)
    returns (longer: seq<Action>)
    requires At(p, trace, rows + [Row(g, Claimed, None)], Owns(|rows|, Fresh, None), wrote)
    ensures At(p, longer, rows + [Row(g, Executing, Some(0))], Owns(|rows|, AtBoundary, None), wrote)
    ensures End(p, longer).db.decisions == End(p, trace).db.decisions && End(p, longer).scans == End(p, trace).scans
  {
    RunSnoc(p, EMPTY, trace, StartSideEffect(0, 0));
    longer := trace + [StartSideEffect(0, 0)];
  }

  lemma ToWritten(p: Policy, trace: seq<Action>, rows: seq<Attempt>, id: nat, wrote: set<nat>)
    returns (longer: seq<Action>)
    requires At(p, trace, rows, Owns(id, AtBoundary, None), wrote)
    ensures At(p, longer, rows, Owns(id, Called, None), wrote + {id})
    ensures End(p, longer).db == End(p, trace).db && End(p, longer).scans == End(p, trace).scans
  {
    RunSnoc(p, EMPTY, trace, CallAdapter(0, true));
    longer := trace + [CallAdapter(0, true)];
  }

  /** The first generation, from an open gate to its write. */
  lemma FirstWrite(p: Policy, trace: seq<Action>) returns (longer: seq<Action>)
    requires At(p, trace, [], Gated, {}) && !SaveRefused(End(p, trace).db, 0)
    ensures At(p, longer, [] + [Row(1, Executing, Some(0))], Owns(0, Called, None), {} + {0}) &&
      Running(End(p, longer).db, 0, 1)
  {
    longer := ToClaimed(p, trace, [], {}, 1);
    longer := ToBoundary(p, longer, [], {}, 1);
    longer := ToWritten(p, longer, [] + [Row(1, Executing, Some(0))], 0, {});
  }

  /** The second one, behind a closed attempt. */
  lemma SecondWrite(p: Policy, trace: seq<Action>, row: Attempt) returns (longer: seq<Action>)
    requires At(p, trace, [row], Gated, {} + {0}) && !SaveRefused(End(p, trace).db, 0)
    requires row.message == 0 && row.generation == 1 && row.token == 1 && !Active(row.status)
    ensures At(p, longer, [row] + [Row(2, Executing, Some(0))], Owns(1, Called, None), {} + {0} + {1})
  {
    longer := ToClaimed(p, trace, [row], {} + {0}, 2);
    longer := ToBoundary(p, longer, [row], {} + {0}, 2);
    longer := ToWritten(p, longer, [row] + [Row(2, Executing, Some(0))], 1, {} + {0});
  }

  /** The worker goes, and the next call finds the gate open. */
  lemma ToNextCall(p: Policy, trace: seq<Action>, rows: seq<Attempt>, w: Worker, wrote: set<nat>, call: Action)
    returns (longer: seq<Action>)
    requires At(p, trace, rows, w, wrote) && (call == Call(0) || (call == ManualCall(0) && !p.automaticOnly))
    requires call.Call? ==> Gate(End(p, trace).db, 0) == Proceed
    ensures At(p, longer, rows, Gated, wrote) && End(p, longer).db == End(p, trace).db
  {
    RunSnoc(p, EMPTY, trace, Leave(0));
    longer := trace + [Leave(0)];
    assert At(p, longer, rows, Free, wrote);
    RunSnoc(p, EMPTY, longer, call);
    longer := longer + [call];
  }

  /** A scanner that reads before the owner has gone: its fail-safe read `claimed`, the owner crossed the
      boundary and wrote, the fail-safe write still won the decision row, and the retry wrote again. */
  lemma ScannerBeforeOwnerGoneWritesTwice() returns (trace: seq<Action>)
    ensures Run(ROGUE_SCANNER, EMPTY, trace).Some?
    ensures var s := Run(ROGUE_SCANNER, EMPTY, trace).value;
      && {0, 1} <= s.wrote && |s.db.attempts| == 2
      && s.db.attempts[0].message == s.db.attempts[1].message
      && s.db.attempts[0].status == FailedSafe && s.db.attempts[0].startedAt.Some?
  {
    var p := ROGUE_SCANNER;
    var f := Flight(0, FailSafe, Row(1, Claimed, None));
    trace := ScannerReadsClaimed(f);
    trace := ToBoundary(p, trace, [], {}, 1);
    trace := ToWritten(p, trace, [] + [Row(1, Executing, Some(0))], 0, {});
    trace := ScannerClobbers(p, trace, f);
    var closed := [Row(1, FailedSafe, Some(0)).(completedAt := Some(0))];
    trace := ToNextCall(p, trace, closed, Owns(0, Called, None), {} + {0}, Call(0));
    trace := SecondWrite(p, trace, closed[0]);
  }

  lemma ScannerReadsClaimed(f: Flight) returns (trace: seq<Action>)
    requires f == Flight(0, FailSafe, Row(1, Claimed, None))
    ensures At(ROGUE_SCANNER, trace, [] + [Row(1, Claimed, None)], Owns(0, Fresh, None), {})
    ensures Running(End(ROGUE_SCANNER, trace).db, 0, 1) && f in End(ROGUE_SCANNER, trace).scans
  {
    var t := ToNextCall(ROGUE_SCANNER, [], [], Free, {}, Call(0));
    t := ToClaimed(ROGUE_SCANNER, t, [], {}, 1);
    trace := ScanStep(t, f);
  }

  lemma ScanStep(t: seq<Action>, f: Flight) returns (trace: seq<Action>)
    requires f == Flight(0, FailSafe, Row(1, Claimed, None))
    requires At(ROGUE_SCANNER, t, [] + [Row(1, Claimed, None)], Owns(0, Fresh, None), {})
    requires Running(End(ROGUE_SCANNER, t).db, 0, 1)
    ensures At(ROGUE_SCANNER, trace, [] + [Row(1, Claimed, None)], Owns(0, Fresh, None), {})
    ensures Running(End(ROGUE_SCANNER, trace).db, 0, 1) && f in End(ROGUE_SCANNER, trace).scans
  {
    RunSnoc(ROGUE_SCANNER, EMPTY, t, ScanRead(0, FailSafe));
    trace := t + [ScanRead(0, FailSafe)];
  }

  lemma ScannerClobbers(p: Policy, trace: seq<Action>, f: Flight) returns (longer: seq<Action>)
    requires f == Flight(0, FailSafe, Row(1, Claimed, None))
    requires At(p, trace, [] + [Row(1, Executing, Some(0))], Owns(0, Called, None), {} + {0})
    requires Running(End(p, trace).db, 0, 1) && f in End(p, trace).scans
    ensures At(p, longer, [Row(1, FailedSafe, Some(0)).(completedAt := Some(0))], Owns(0, Called, None), {} + {0})
    ensures !SaveRefused(End(p, longer).db, 0) && Gate(End(p, longer).db, 0) == Proceed
  {
    RunSnoc(p, EMPTY, trace, ScanWrite(f, 0));
    longer := trace + [ScanWrite(f, 0)];
    var db := End(p, longer).db;
    assert db.attempts == [Row(1, FailedSafe, Some(0)).(completedAt := Some(0))];
    assert Newest(db.attempts, 0) == Some(0);
  }

  /** A manual call skips the gate: after a success it runs, and writes, a second time. */
  lemma ManualCallWritesTwice() returns (trace: seq<Action>)
    ensures Run(MANUAL_RETRY, EMPTY, trace).Some?
    ensures var s := Run(MANUAL_RETRY, EMPTY, trace).value;
      && {0, 1} <= s.wrote && |s.db.attempts| == 2
      && s.db.attempts[0].message == s.db.attempts[1].message
      && s.db.attempts[0].status == Succeeded && s.db.attempts[0].effect == Some(ConfirmedApplied)
  {
    var p := MANUAL_RETRY;
    trace := ToNextCall(p, [], [], Free, {}, Call(0));
    trace := FirstWrite(p, trace);
    var row;
    trace, row := OwnerSucceeds(p, trace);
    trace := ToNextCall(p, trace, [row], Owns(0, Past, None), {} + {0}, ManualCall(0));
    trace := SecondWrite(p, trace, row);
  }

  /** The recovery guard finds a reclaimed job expired and saves a failed decision over a settled one:
      the next automatic retry finds the gate open, and writes a second time. */
  lemma OverwrittenDecisionWritesTwice() returns (trace: seq<Action>)
    ensures Run(OVERWRITER, EMPTY, trace).Some?
    ensures var s := Run(OVERWRITER, EMPTY, trace).value;
      && {0, 1} <= s.wrote && |s.db.attempts| == 2
      && s.db.attempts[0].message == s.db.attempts[1].message
      && s.db.attempts[0].status == Succeeded && s.db.attempts[0].effect == Some(ConfirmedApplied)
  {
    var p := OVERWRITER;
    trace := ToNextCall(p, [], [], Free, {}, Call(0));
    trace := FirstWrite(p, trace);
    var row;
    trace, row := OwnerSucceeds(p, trace);
    trace := ToOverwritten(p, trace, row);
    trace := ToNextCall(p, trace, [row], Free, {} + {0}, Call(0));
    trace := SecondWrite(p, trace, row);
  }

  lemma ToOverwritten(p: Policy, trace: seq<Action>, row: Attempt) returns (longer: seq<Action>)
    requires !p.keepsSettled && At(p, trace, [row], Owns(0, Past, None), {} + {0}) && !SaveRefused(End(p, trace).db, 0)
    requires row.message == 0 && row.status == Succeeded
    ensures At(p, longer, [row], Free, {} + {0}) && !SaveRefused(End(p, longer).db, 0) &&
      Gate(End(p, longer).db, 0) == Proceed
  {
    RunSnoc(p, EMPTY, trace, Leave(0));
    longer := trace + [Leave(0)];
    assert At(p, longer, [row], Free, {} + {0});
    var expire := Overwrite(0, AuthoritativeFailed,
      Automation(Some("skipped"), Some("authoritative_gap_recovery_expired")));
    RunSnoc(p, EMPTY, longer, expire);
    longer := longer + [expire];
    assert At(p, longer, [row], Free, {} + {0});
    assert Newest(End(p, longer).db.attempts, 0) == Some(0);
  }

  lemma OwnerSucceeds(p: Policy, trace: seq<Action>) returns (longer: seq<Action>, row: Attempt)
    requires At(p, trace, [] + [Row(1, Executing, Some(0))], Owns(0, Called, None), {} + {0})
    requires Running(End(p, trace).db, 0, 1)
    ensures row.status == Succeeded && row.effect == Some(ConfirmedApplied)
    ensures row.message == 0 && row.generation == 1 && row.token == 1
    ensures At(p, longer, [row], Owns(0, Past, None), {} + {0}) && !SaveRefused(End(p, longer).db, 0)
  {
    var done := RecordEffect(0, "executed", None, ConfirmedApplied, [ExchangeWrite]);
    var recorded := Row(1, OutcomeRecorded, Some(0)).(effect := Some(ConfirmedApplied),
      automation := Automation(Some("executed"), None), evidence := Some([ExchangeWrite]));
    RunSnoc(p, EMPTY, trace, done);
    longer := trace + [done];
    assert At(p, longer, [recorded], Owns(0, Past, None), {} + {0});
    RunSnoc(p, EMPTY, longer, CloseRead(0, Finalize));
    longer := longer + [CloseRead(0, Finalize)];
    assert At(p, longer, [recorded], Owns(0, Past, Some(Flight(0, Finalize, recorded))), {} + {0});
    RunSnoc(p, EMPTY, longer, CloseWrite(0, 0));
    longer := longer + [CloseWrite(0, 0)];
    row := recorded.(status := Succeeded, completedAt := Some(0));
    assert End(p, longer).db.attempts == [row];
  }
}
