/** What the tracker answers to one sample, said of the sample and of what came before alone: the first
    thing wrong with it and the state to fall back to, or the counters it moves. */
module AcceptanceAnswers {
  import opened Options
  import opened ChatJobs
  import opened Acceptance

  // ---------------------------------------------------------------- the first thing wrong

  predicate StateAgrees(e: RuntimeState, r: Runtime) { r.database == Some(e) && r.api == Some(e) }

  predicate RoleAgrees(r: Runtime) { r.roleEvidenceValid && r.workerRole == Some(Worker) }

  /** The runtime is not the expected one, in the order of the checks. */
  predicate RuntimeWrong(e: RuntimeState, pids: Pids, r: Runtime, reason: Reason) {
    match reason
    case StateDrift => !StateAgrees(e, r)
    case PidDrift => StateAgrees(e, r) && r.pids != Some(pids)
    case RoleDrift => StateAgrees(e, r) && r.pids == Some(pids) && !RoleAgrees(r)
    case CapDrift => StateAgrees(e, r) && r.pids == Some(pids) && RoleAgrees(r) && r.workerCap != Some(e.cap)
    case LaneBounds =>
      && StateAgrees(e, r) && r.pids == Some(pids) && RoleAgrees(r) && r.workerCap == Some(e.cap)
      && (r.active == None || r.peak == None || r.active.value < 0 || r.peak.value < r.active.value ||
          e.cap < r.peak.value)
    case _ => false
  }

  /** The row that counts for a role: the last one. */
  predicate LastFor(rows: seq<RoleHealth>, role: Role, row: RoleHealth) {
    exists i :: 0 <= i < |rows| && rows[i] == row && row.role == role &&
      forall j | i < j < |rows| :: rows[j].role != role
  }

  lemma LastStays(rows: seq<RoleHealth>, next: RoleHealth, role: Role, row: RoleHealth)
    requires LastFor(rows, role, row) && next.role != role
    ensures LastFor(rows + [next], role, row)
  {
    var i :| 0 <= i < |rows| && rows[i] == row && row.role == role && forall j | i < j < |rows| :: rows[j].role != role;
    assert (rows + [next])[i] == row;
  }

  lemma NextIsLast(rows: seq<RoleHealth>, next: RoleHealth)
    ensures LastFor(rows + [next], next.role, next)
  {
    assert (rows + [next])[|rows|] == next;
  }

  lemma {:induction false} TableHas(rows: seq<RoleHealth>, role: Role)
    ensures role in Table(rows) <==> exists i :: 0 <= i < |rows| && rows[i].role == role
    ensures role in Table(rows) ==> LastFor(rows, role, Table(rows)[role])
  {
    if rows != [] {
      var init, last := rows[..|rows| - 1], rows[|rows| - 1];
      TableHas(init, role);
      assert rows == init + [last];
      if last.role == role {
        NextIsLast(init, last);
      } else if role in Table(init) {
        LastStays(init, last, role, Table(init)[role]);
      } else {
        assert forall i | 0 <= i < |init| :: rows[i] == init[i];
      }
    }
  }

  /** What the counters of one role say between two readings: they fell, they disagree, they name more captures
      than there are, or they moved, and then the first new capture names the stall. */
  predicate RoleStalled(was: RoleHealth, now: RoleHealth, role: Role, reason: Reason) {
    var stalls, captures := now.stalls - was.stalls, now.captures - was.captures;
    if stalls < 0 || captures < 0 then reason == StallInvalid
    else if stalls != captures || captures > |now.recent| then reason == StallIncomplete
    else if captures == 0 then false
    else
      var first := now.recent[|now.recent| - captures];
      reason == if first in {Captured, Unattributed, IdleCapture} then LoopStall(role, first) else StallInvalid
  }

  predicate RoleQuiet(was: RoleHealth, now: RoleHealth) { now.stalls == was.stalls && now.captures == was.captures }

  /** The first role to have stalled, in the order ingest, worker, web. */
  predicate Stalled(was: HealthTable, now: HealthTable, reason: Reason)
    requires AllRoles(was) && AllRoles(now)
  {
    || RoleStalled(was[Ingest], now[Ingest], Ingest, reason)
    || (RoleQuiet(was[Ingest], now[Ingest]) && RoleStalled(was[Worker], now[Worker], Worker, reason))
    || (&& RoleQuiet(was[Ingest], now[Ingest]) && RoleQuiet(was[Worker], now[Worker])
        && RoleStalled(was[Web], now[Web], Web, reason))
  }

  /** A fresh sample with health rows must have the three roles, and none of them stalled since the last one. */
  predicate HealthWrong(last: Option<HealthTable>, s: Sample, reason: Reason)
    requires LastOk(last)
  {
    && s.runtimeFresh && s.runtime.health != []
    && var now := Table(s.runtime.health);
       if now.Keys != {Ingest, Worker, Web} then reason == StallInvalid
       else last.Some? && Stalled(last.value, now, reason)
  }

  predicate EventsWrong(s: Sample, reason: Reason) {
    if s.loopStalls != |s.stallEvents| then reason == StallIncomplete
    else if s.stallEvents == [] then false
    else
      var e := s.stallEvents[0];
      reason == if e.role in {Ingest, Worker, Web} && e.attribution in {Captured, Unattributed, IdleCapture}
                then LoopStall(e.role, e.attribution) else StallInvalid
  }

  /** The counters of the sample with their reasons, in the order in which they are looked at. */
  function Counters(s: Sample): seq<(int, Reason)> {
    [(s.duplicates, DuplicateJob), (s.missing, MissingJob), (s.orphans, OrphanJob), (s.stuck, StuckJob),
     (s.sqliteLocks, SqliteLock), (s.sessionConflicts, SessionConflict), (s.deepseek402, Deepseek402),
     (s.ingestAnomalies, IngestAnomaly), (s.executionAnomalies, ExecutionAnomaly)]
  }

  predicate CountersWrong(s: Sample, reason: Reason) {
    exists i :: 0 <= i < 9 && FirstCounter(s, i, reason)
  }

  predicate FirstCounter(s: Sample, i: nat, reason: Reason)
    requires i < 9
  {
    Counters(s)[i].1 == reason && Counters(s)[i].0 != 0 && forall j | 0 <= j < i :: Counters(s)[j].0 == 0
  }

  lemma RuntimeFailureIff(e: RuntimeState, pids: Pids, r: Runtime, reason: Reason)
    ensures RuntimeFailure(e, pids, r) == Some(reason) <==> RuntimeWrong(e, pids, r, reason)
  {
  }

  lemma DeltaIff(was: RoleHealth, now: RoleHealth, role: Role, reason: Reason)
    ensures Delta(was, now, role) == Some(reason) <==> RoleStalled(was, now, role, reason)
    ensures Delta(was, now, role) == None <==> RoleQuiet(was, now)
  {
  }

  lemma DeltasIff(was: HealthTable, now: HealthTable, reason: Reason)
    requires AllRoles(was) && AllRoles(now)
    ensures Deltas(was, now) == Some(reason) <==> Stalled(was, now, reason)
  {
    DeltaIff(was[Ingest], now[Ingest], Ingest, reason);
    DeltaIff(was[Worker], now[Worker], Worker, reason);
    DeltaIff(was[Web], now[Web], Web, reason);
  }

  lemma HealthIff(last: Option<HealthTable>, s: Sample, reason: Reason)
    requires LastOk(last)
    ensures HealthCheck(last, s).1 == Some(reason) <==> HealthWrong(last, s, reason)
  {
    if Reading(s) && AllRoles(Table(s.runtime.health)) && last.Some? {
      DeltasIff(last.value, Table(s.runtime.health), reason);
    }
  }

  lemma EventsIff(s: Sample, reason: Reason)
    ensures EventFailure(s) == Some(reason) <==> EventsWrong(s, reason)
  {
  }

  lemma CountersIff(s: Sample, reason: Reason)
    ensures Anomaly(s) == Some(reason) <==> CountersWrong(s, reason)
  {
    forall i | 0 <= i < 9 && FirstCounter(s, i, reason) ensures Anomaly(s) == Some(reason) {
      AnomalyAt(s, i, reason);
    }
    if Anomaly(s).Some? {
      var i := FirstNonZero(s);
      AnomalyAt(s, i, Counters(s)[i].1);
    }
  }

  lemma FirstNonZero(s: Sample) returns (i: nat)
    requires Anomaly(s).Some?
    ensures i < 9 && FirstCounter(s, i, Counters(s)[i].1)
  {
    var cs := Counters(s);
    i := 0;
    assert cs[0].0 == s.duplicates && cs[1].0 == s.missing && cs[2].0 == s.orphans && cs[3].0 == s.stuck;
    assert cs[4].0 == s.sqliteLocks && cs[5].0 == s.sessionConflicts && cs[6].0 == s.deepseek402;
    assert cs[7].0 == s.ingestAnomalies && cs[8].0 == s.executionAnomalies;
    while cs[i].0 == 0
      invariant i < 9 && forall j | 0 <= j < i :: cs[j].0 == 0
      decreases 9 - i
    {
      i := i + 1;
    }
  }

  lemma AnomalyAt(s: Sample, i: nat, reason: Reason)
    requires i < 9 && FirstCounter(s, i, reason)
    ensures Anomaly(s) == Some(reason)
  {
    var cs := Counters(s);
    assert i > 0 ==> cs[0].0 == 0;
    assert i > 1 ==> cs[1].0 == 0;
    assert i > 2 ==> cs[2].0 == 0;
    assert i > 3 ==> cs[3].0 == 0;
    assert i > 4 ==> cs[4].0 == 0;
    assert i > 5 ==> cs[5].0 == 0;
    assert i > 6 ==> cs[6].0 == 0;
    assert i > 7 ==> cs[7].0 == 0;
  }

  // ---------------------------------------------------------------- the answer

  /** The run has failed for good, and falls back to the queue pipeline: at the full cap for an ingest
      anomaly, at one lane for everything else. */
  ghost predicate FailsWith(u: Tracker, r: Result, reason: Reason) {
    && r == Result(false, true, Some(reason),
               Some(RuntimeState(if reason == IngestAnomaly then 3 else 1, "queue", "queue")))
    && u.failure == Some(r)
  }

  /** Nothing is wrong with the runtime, nor with the health of the loops. */
  ghost predicate RuntimeFine(t: Tracker, s: Sample)
    requires LastOk(t.lastHealth)
  {
    forall reason :: !RuntimeWrong(t.expected, t.pids, s.runtime, reason) && !HealthWrong(t.lastHealth, s, reason)
  }

  function Greater(a: int, b: int): int { if a < b then b else a }

  /** The chats in which a job of the sample's traffic is claimed. */
  ghost function BusyChats(s: Sample): set<int> {
    var jobs := if s.trafficJobs.Some? then s.trafficJobs.value else s.jobs;
    set i | 0 <= i < |jobs| && jobs[i].status == Claimed :: jobs[i].chat
  }

  lemma BusyChatsAre(s: Sample)
    ensures BusyChats(s) == ClaimedChats(Traffic(s))
  {
    var jobs := Traffic(s);
    forall chat ensures chat in BusyChats(s) <==> chat in ClaimedChats(jobs) {
      if chat in BusyChats(s) {
        var i :| 0 <= i < |jobs| && jobs[i].status == Claimed && jobs[i].chat == chat;
        assert jobs[i] in jobs;
      }
    }
  }

  /** What a good sample moves: each maximum, the last backlog, the last reading of the loops, and whether two
      chats were worked on at once by as many lanes. */
  ghost predicate Moved(t: Tracker, s: Sample, u: Tracker) {
    var peak := if s.runtime.peak.Some? then s.runtime.peak.value else 0;
    var most := Greater(t.claimedChatsMax, |BusyChats(s)|);
    && u.expected == t.expected && u.pids == t.pids && u.failure == None && u.incomplete == 0
    && u.rawMax == Greater(t.rawMax, s.rawMessages) && u.chatMax == Greater(t.chatMax, s.chats)
    && u.peakMax == Greater(t.peakMax, peak) && u.backlogMax == Greater(t.backlogMax, s.pending + s.claimed)
    && u.pending == s.pending && u.claimed == s.claimed && u.claimedChatsMax == most
    && (u.crossChat <==> t.crossChat || (most >= 2 && s.runtime.peak.Some? && s.runtime.peak.value >= most))
    && u.lastHealth == if s.runtimeFresh && s.runtime.health != [] then Some(Table(s.runtime.health)) else t.lastHealth
  }

  /** With a fine runtime: the chats come first, the first report deciding; then the stall events, then the
      counters; and a sample with nothing wrong moves the counters. */
  ghost predicate AnswersFine(s: Sample, t: Tracker, u: Tracker, r: Result) {
    if Violations(s.jobs) != [] then
      FailsWith(u, r, if Violations(s.jobs)[0].MultipleClaims? then SameChatMultiple else SameChatOrder)
    else if exists reason :: EventsWrong(s, reason) then
      forall reason | EventsWrong(s, reason) :: FailsWith(u, r, reason)
    else if exists reason :: CountersWrong(s, reason) then
      forall reason | CountersWrong(s, reason) :: FailsWith(u, r, reason)
    else r == Result(false, false, None, None) && Moved(t, s, u)
  }

  lemma CountedMoves(t: Tracker, s: Sample)
    requires t.failure == None && LastOk(t.lastHealth) && t.incomplete == 0 && HealthCheck(t.lastHealth, s).1 == None
    ensures Moved(t, s, Counted(t.(lastHealth := HealthCheck(t.lastHealth, s).0), s))
  {
    BusyChatsAre(s);
  }

  lemma FailsOnRuntime(t: Tracker, s: Sample, reason: Reason)
    requires t.failure == None && LastOk(t.lastHealth) && RuntimeWrong(t.expected, t.pids, s.runtime, reason)
    ensures FailsWith(Complete(t, s).0, Complete(t, s).1, reason)
  {
    RuntimeFailureIff(t.expected, t.pids, s.runtime, reason);
  }

  lemma NoRuntimeFailure(t: Tracker, s: Sample)
    requires forall reason :: !RuntimeWrong(t.expected, t.pids, s.runtime, reason)
    ensures RuntimeFailure(t.expected, t.pids, s.runtime) == None
  {
    if RuntimeFailure(t.expected, t.pids, s.runtime).Some? {
      RuntimeFailureIff(t.expected, t.pids, s.runtime, RuntimeFailure(t.expected, t.pids, s.runtime).value);
    }
  }

  lemma FailsOnHealth(t: Tracker, s: Sample, reason: Reason)
    requires t.failure == None && LastOk(t.lastHealth) && HealthWrong(t.lastHealth, s, reason)
    requires RuntimeFailure(t.expected, t.pids, s.runtime) == None
    ensures FailsWith(Complete(t, s).0, Complete(t, s).1, reason)
  {
    HealthIff(t.lastHealth, s, reason);
  }

  lemma FineAnswers(t: Tracker, s: Sample)
    requires t.failure == None && LastOk(t.lastHealth) && t.incomplete == 0
    requires RuntimeFailure(t.expected, t.pids, s.runtime) == None && HealthCheck(t.lastHealth, s).1 == None
    ensures AnswersFine(s, t, Complete(t, s).0, Complete(t, s).1)
  {
    CountedMoves(t, s);
    forall reason
      ensures EventFailure(s) == Some(reason) <==> EventsWrong(s, reason)
      ensures Anomaly(s) == Some(reason) <==> CountersWrong(s, reason)
    {
      EventsIff(s, reason);
      CountersIff(s, reason);
    }
  }

  lemma CompleteAnswers(t: Tracker, s: Sample)
    requires t.failure == None && LastOk(t.lastHealth) && t.incomplete == 0
    ensures var (u, r) := Complete(t, s);
      && (forall reason | RuntimeWrong(t.expected, t.pids, s.runtime, reason) :: FailsWith(u, r, reason))
      && ((forall reason :: !RuntimeWrong(t.expected, t.pids, s.runtime, reason)) ==>
            forall reason | HealthWrong(t.lastHealth, s, reason) :: FailsWith(u, r, reason))
      && (RuntimeFine(t, s) ==> AnswersFine(s, t, u, r))
  {
    var (u, r) := Complete(t, s);
    forall reason | RuntimeWrong(t.expected, t.pids, s.runtime, reason) ensures FailsWith(u, r, reason) {
      FailsOnRuntime(t, s, reason);
    }
    if forall reason :: !RuntimeWrong(t.expected, t.pids, s.runtime, reason) {
      NoRuntimeFailure(t, s);
      forall reason | HealthWrong(t.lastHealth, s, reason) ensures FailsWith(u, r, reason) {
        FailsOnHealth(t, s, reason);
      }
      if HealthCheck(t.lastHealth, s).1.Some? {
        HealthIff(t.lastHealth, s, HealthCheck(t.lastHealth, s).1.value);
      } else {
        FineAnswers(t, s);
      }
    }
  }

  /** The answer to one sample while nothing has failed yet. */
  lemma SampleAnswers(t: Tracker, s: Sample)
    requires t.failure == None && LastOk(t.lastHealth)
    ensures var (u, r) := Observe(t, s);
      if s.retryExhausted then FailsWith(u, r, ObserverIncomplete)
      else if !s.runtime.complete then
        if t.incomplete == 0 then u == t.(incomplete := 1) && r == Result(false, false, Some(IncompleteRetry), None)
        else FailsWith(u, r, ObserverIncomplete)
      else
        && (forall reason | RuntimeWrong(t.expected, t.pids, s.runtime, reason) :: FailsWith(u, r, reason))
        && ((forall reason :: !RuntimeWrong(t.expected, t.pids, s.runtime, reason)) ==>
              forall reason | HealthWrong(t.lastHealth, s, reason) :: FailsWith(u, r, reason))
        && (RuntimeFine(t, s) ==> AnswersFine(s, t, u, r))
  {
    if !s.retryExhausted && s.runtime.complete {
      CompleteAnswers(t.(incomplete := 0), s);
    }
  }

  /** The verdict of a run that has not failed: it passes exactly when the minimum was met. */
  lemma VerdictAnswers(t: Tracker)
    requires t.failure == None
    ensures var (u, r) := Finalize(t);
      if 5 <= t.rawMax && 2 <= t.chatMax && 2 <= t.peakMax <= 3 && t.crossChat && t.pending == 0 && t.claimed == 0
      then u == t && r == Result(true, false, None, None)
      else FailsWith(u, r, MinimumNotMet)
  {
  }
}
