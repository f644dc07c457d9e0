/** The acceptance tracker of the per-chat rollout: it watches a run of samples and remembers the
    first thing that went wrong. */
module Acceptance {
  import opened Options
  import opened ChatJobs

  datatype RuntimeState = RuntimeState(cap: int, pipeline: string, command: string)

  datatype Pids = Pids(ingest: int, worker: int, web: int)

  datatype Role = Ingest | Worker | Web | OtherRole(name: string)

  datatype Attribution = Captured | Unattributed | IdleCapture | OtherAttribution(text: string)

  datatype RoleHealth = RoleHealth(role: Role, stalls: int, captures: int, recent: seq<Attribution>)

  datatype Runtime = Runtime(
    complete: bool, database: Option<RuntimeState>, api: Option<RuntimeState>, pids: Option<Pids>,
    workerRole: Option<Role>, workerCap: Option<int>, active: Option<int>, peak: Option<int>,
    health: seq<RoleHealth>, roleEvidenceValid: bool)

  datatype StallEvent = StallEvent(role: Role, attribution: Attribution)

  datatype Sample = Sample(
    runtime: Runtime, jobs: seq<Job>, rawMessages: int, chats: int, pending: int, claimed: int,
    duplicates: int, missing: int, orphans: int, stuck: int, sqliteLocks: int, loopStalls: int,
    sessionConflicts: int, deepseek402: int, ingestAnomalies: int, executionAnomalies: int,
    stallEvents: seq<StallEvent>, runtimeFresh: bool, retryExhausted: bool, trafficJobs: Option<seq<Job>>)

  datatype Reason =
    | ObserverIncomplete | IncompleteRetry | StateDrift | PidDrift | RoleDrift | CapDrift | LaneBounds
    | StallInvalid | StallIncomplete | LoopStall(role: Role, attribution: Attribution)
    | SameChatMultiple | SameChatOrder
    | DuplicateJob | MissingJob | OrphanJob | StuckJob | SqliteLock | SessionConflict | Deepseek402
    | IngestAnomaly | ExecutionAnomaly | MinimumNotMet

  datatype Result = Result(passed: bool, failed: bool, reason: Option<Reason>, rollback: Option<RuntimeState>)

  type HealthTable = map<Role, RoleHealth>

  datatype Tracker = Tracker(
    expected: RuntimeState, pids: Pids, rawMax: int, chatMax: int, peakMax: int, backlogMax: int,
    crossChat: bool, claimedChatsMax: int, pending: int, claimed: int, incomplete: nat,
    failure: Option<Result>, lastHealth: Option<HealthTable>)

  function Fresh(expected: RuntimeState, pids: Pids): Tracker {
    Tracker(expected, pids, 0, 0, 0, 0, false, 0, 0, 0, 0, None, None)
  }

  // ---------------------------------------------------------------- the checks

  predicate KnownRole(r: Role) { !r.OtherRole? }

  predicate KnownAttribution(a: Attribution) { !a.OtherAttribution? }

  function RuntimeFailure(expected: RuntimeState, pids: Pids, r: Runtime): Option<Reason> {
    if r.database != Some(expected) || r.api != Some(expected) then Some(StateDrift)
    else if r.pids != Some(pids) then Some(PidDrift)
    else if !r.roleEvidenceValid || r.workerRole != Some(Worker) then Some(RoleDrift)
    else if r.workerCap != Some(expected.cap) then Some(CapDrift)
    else if r.active == None || r.peak == None || !(0 <= r.active.value <= r.peak.value <= expected.cap)
      then Some(LaneBounds)
    else None
  }

  /** A later row of the same role replaces an earlier one. */
  function Table(rows: seq<RoleHealth>): HealthTable {
    if rows == [] then map[] else Table(rows[..|rows| - 1])[rows[|rows| - 1].role := rows[|rows| - 1]]
  }

  predicate AllRoles(t: HealthTable) { t.Keys == {Ingest, Worker, Web} }

  function Delta(old_: RoleHealth, now: RoleHealth, role: Role): Option<Reason> {
    var stalls, captures := now.stalls - old_.stalls, now.captures - old_.captures;
    if stalls < 0 || captures < 0 then Some(StallInvalid)
    else if stalls != captures then Some(StallIncomplete)
    else if captures == 0 then None
    else if captures > |now.recent| then Some(StallIncomplete)
    else
      var first := now.recent[|now.recent| - captures];
      if KnownAttribution(first) then Some(LoopStall(role, first)) else Some(StallInvalid)
  }

  function Deltas(previous: HealthTable, now: HealthTable): Option<Reason>
    requires AllRoles(previous) && AllRoles(now)
  {
    var d1 := Delta(previous[Ingest], now[Ingest], Ingest);
    var d2 := Delta(previous[Worker], now[Worker], Worker);
    if d1.Some? then d1 else if d2.Some? then d2 else Delta(previous[Web], now[Web], Web)
  }

  /** Only a fresh sample with health rows is a reading. */
  predicate Reading(s: Sample) { s.runtimeFresh && s.runtime.health != [] }

  predicate LastOk(last: Option<HealthTable>) { last.Some? ==> AllRoles(last.value) }

  function HealthCheck(last: Option<HealthTable>, s: Sample): (r: (Option<HealthTable>, Option<Reason>))
    requires LastOk(last)
    ensures LastOk(r.0)
  {
    if !Reading(s) then (last, None)
    else
      var now := Table(s.runtime.health);
      if !AllRoles(now) then (last, Some(StallInvalid))
      else if last == None then (Some(now), None)
      else (Some(now), Deltas(last.value, now))
  }

  function EventFailure(s: Sample): Option<Reason> {
    if s.loopStalls != |s.stallEvents| then Some(StallIncomplete)
    else if s.stallEvents == [] then None
    else
      var e := s.stallEvents[0];
      if KnownRole(e.role) && KnownAttribution(e.attribution) then Some(LoopStall(e.role, e.attribution))
        else Some(StallInvalid)
  }

  function Anomaly(s: Sample): Option<Reason> {
    if s.duplicates != 0 then Some(DuplicateJob)
    else if s.missing != 0 then Some(MissingJob)
    else if s.orphans != 0 then Some(OrphanJob)
    else if s.stuck != 0 then Some(StuckJob)
    else if s.sqliteLocks != 0 then Some(SqliteLock)
    else if s.sessionConflicts != 0 then Some(SessionConflict)
    else if s.deepseek402 != 0 then Some(Deepseek402)
    else if s.ingestAnomalies != 0 then Some(IngestAnomaly)
    else if s.executionAnomalies != 0 then Some(ExecutionAnomaly)
    else None
  }

  // ---------------------------------------------------------------- one sample

  function FailResult(reason: Reason): Result {
    Result(false, true, Some(reason), Some(RuntimeState(if reason == IngestAnomaly then 3 else 1, "queue", "queue")))
  }

  function Fail(t: Tracker, reason: Reason): (Tracker, Result) {
    (t.(failure := Some(FailResult(reason))), FailResult(reason))
  }

  function Peak(s: Sample): int { if s.runtime.peak.Some? then s.runtime.peak.value else 0 }

  function Traffic(s: Sample): seq<Job> { if s.trafficJobs.Some? then s.trafficJobs.value else s.jobs }

  function Max(a: int, b: int): int { if a < b then b else a }

  function Counted(t: Tracker, s: Sample): Tracker {
    var claimedChats := Max(t.claimedChatsMax, |ClaimedChats(Traffic(s))|);
    t.(rawMax := Max(t.rawMax, s.rawMessages), chatMax := Max(t.chatMax, s.chats), peakMax := Max(t.peakMax, Peak(s)),
       pending := s.pending, claimed := s.claimed, backlogMax := Max(t.backlogMax, s.pending + s.claimed),
       claimedChatsMax := claimedChats,
       crossChat := t.crossChat || (claimedChats >= 2 && s.runtime.peak.Some? && s.runtime.peak.value >= claimedChats))
  }

  function Complete(t: Tracker, s: Sample): (r: (Tracker, Result))
    requires LastOk(t.lastHealth)
    ensures LastOk(r.0.lastHealth)
  {
    var runtime := RuntimeFailure(t.expected, t.pids, s.runtime);
    if runtime.Some? then Fail(t, runtime.value)
    else
      var (last, stall) := HealthCheck(t.lastHealth, s);
      var u := t.(lastHealth := last);
      if stall.Some? then Fail(u, stall.value)
      else if Violations(s.jobs) != []
        then Fail(u, if Violations(s.jobs)[0].MultipleClaims? then SameChatMultiple else SameChatOrder)
      else if EventFailure(s).Some? then Fail(u, EventFailure(s).value)
      else if Anomaly(s).Some? then Fail(u, Anomaly(s).value)
      else (Counted(u, s), Result(false, false, None, None))
  }

  function Observe(t: Tracker, s: Sample): (r: (Tracker, Result))
    requires LastOk(t.lastHealth)
    ensures LastOk(r.0.lastHealth)
  {
    if t.failure.Some? then (t, t.failure.value)
    else if s.retryExhausted then Fail(t, ObserverIncomplete)
    else if !s.runtime.complete then
      var u := t.(incomplete := t.incomplete + 1);
      if u.incomplete == 1 then (u, Result(false, false, Some(IncompleteRetry), None)) else Fail(u, ObserverIncomplete)
    else Complete(t.(incomplete := 0), s)
  }

  predicate MinimumMet(t: Tracker) {
    && t.rawMax >= 5 && t.chatMax >= 2 && 2 <= t.peakMax <= 3 && t.crossChat && t.pending == 0 && t.claimed == 0
  }

  function Finalize(t: Tracker): (Tracker, Result) {
    if t.failure.Some? then (t, t.failure.value)
    else if !MinimumMet(t) then Fail(t, MinimumNotMet)
    else (t, Result(true, false, None, None))
  }

  // ---------------------------------------------------------------- the object

  class AcceptanceTracker {
    const expected: RuntimeState
    const pids: Pids
    var rawMessageCount: int
    var distinctChatCount: int
    var peakLanes: int
    var maxBacklog: int
    var crossChatProgress: bool
    var maxClaimedChats: int
    var pendingCount: int
    var claimedCount: int
    var incompleteAttempts: nat
    var failure: Option<Result>
    var lastLoopHealth: Option<HealthTable>

    ghost predicate Valid()
      reads this
    {
      LastOk(lastLoopHealth)
    }

    ghost function Value(): Tracker
      reads this
    {
      Tracker(expected, pids, rawMessageCount, distinctChatCount, peakLanes, maxBacklog, crossChatProgress,
        maxClaimedChats,
              pendingCount, claimedCount, incompleteAttempts, failure, lastLoopHealth)
    }

    constructor (expected: RuntimeState, pids: Pids)
      ensures Valid() && Value() == Fresh(expected, pids)
    {
      this.expected, this.pids := expected, pids;
      rawMessageCount, distinctChatCount, peakLanes, maxBacklog := 0, 0, 0, 0;
      crossChatProgress, maxClaimedChats, pendingCount, claimedCount := false, 0, 0, 0;
      incompleteAttempts, failure, lastLoopHealth := 0, None, None;
    }

    method RecordFailure(reason: Reason) returns (r: Result)
      requires Valid()
      modifies this`failure
      ensures Valid() && (Value(), r) == Fail(old(Value()), reason)
    {
      var cap := if reason == IngestAnomaly then 3 else 1;
      r := Result(false, true, Some(reason), Some(RuntimeState(cap, "queue", "queue")));
      failure := Some(r);
    }

    method CheckHealth(s: Sample) returns (reason: Option<Reason>)
      requires Valid()
      modifies this`lastLoopHealth
      ensures Valid() && (lastLoopHealth, reason) == HealthCheck(old(lastLoopHealth), s)
    {
      if !s.runtimeFresh || s.runtime.health == [] {
        return None;
      }
      var now := Table(s.runtime.health);
      if !AllRoles(now) {
        return Some(StallInvalid);
      }
      if lastLoopHealth == None {
        lastLoopHealth := Some(now);
        return None;
      }
      var previous := lastLoopHealth.value;
      lastLoopHealth := Some(now);
      reason := Deltas(previous, now);
    }

    method Count(s: Sample)
      requires Valid()
      modifies this
      ensures Valid() && Value() == Counted(old(Value()), s)
    {
      rawMessageCount := Max(rawMessageCount, s.rawMessages);
      distinctChatCount := Max(distinctChatCount, s.chats);
      peakLanes := Max(peakLanes, Peak(s));
      pendingCount := s.pending;
      claimedCount := s.claimed;
      maxBacklog := Max(maxBacklog, s.pending + s.claimed);
      var _, claimedChats := EvaluateSameChatJobs(Traffic(s));
      maxClaimedChats := Max(maxClaimedChats, |claimedChats|);
      if maxClaimedChats >= 2 && s.runtime.peak.Some? && s.runtime.peak.value >= maxClaimedChats {
        crossChatProgress := true;
      }
    }

    method ObserveSample(s: Sample) returns (r: Result)
      requires Valid()
      modifies this
      ensures Valid() && (Value(), r) == Observe(old(Value()), s)
    {
      if failure.Some? {
        return failure.value;
      }
      if s.retryExhausted {
        r := RecordFailure(ObserverIncomplete);
        return;
      }
      if !s.runtime.complete {
        incompleteAttempts := incompleteAttempts + 1;
        if incompleteAttempts == 1 {
          return Result(false, false, Some(IncompleteRetry), None);
        }
        r := RecordFailure(ObserverIncomplete);
        return;
      }
      incompleteAttempts := 0;
      var reason := RuntimeFailure(expected, pids, s.runtime);
      if reason.Some? {
        r := RecordFailure(reason.value);
        return;
      }
      reason := CheckHealth(s);
      if reason.Some? {
        r := RecordFailure(reason.value);
        return;
      }
      var violations, _ := EvaluateSameChatJobs(s.jobs);
      if violations != [] {
        r := RecordFailure(if violations[0].MultipleClaims? then SameChatMultiple else SameChatOrder);
        return;
      }
      reason := EventFailure(s);
      if reason.Some? {
        r := RecordFailure(reason.value);
        return;
      }
      reason := Anomaly(s);
      if reason.Some? {
        r := RecordFailure(reason.value);
        return;
      }
      Count(s);
      r := Result(false, false, None, None);
    }

    method FinalizeRun() returns (r: Result)
      requires Valid()
      modifies this`failure
      ensures Valid() && (Value(), r) == Finalize(old(Value()))
    {
      if failure.Some? {
        return failure.value;
      }
      if rawMessageCount < 5 || distinctChatCount < 2 || !(2 <= peakLanes <= 3) || !crossChatProgress
         || pendingCount != 0 || claimedCount != 0 {
        r := RecordFailure(MinimumNotMet);
        return;
      }
      r := Result(true, false, None, None);
    }
  }
}
