/** What a passed acceptance run proves about the whole run, and nothing less: the tracker passes
    exactly on the runs described here. */
module AcceptanceTheorems {
  import opened Options
  import opened ChatJobs
  import opened Acceptance

  function Observed(expected: RuntimeState, pids: Pids, samples: seq<Sample>): (t: Tracker)
    ensures LastOk(t.lastHealth)
  {
    if samples == [] then Fresh(expected, pids)
    else Observe(Observed(expected, pids, samples[..|samples| - 1]), samples[|samples| - 1]).0
  }

  // ---------------------------------------------------------------- the whole-run claim

  function Completed(samples: seq<Sample>): seq<Sample> {
    if samples == [] then []
    else if samples[|samples| - 1].runtime.complete then Completed(samples[..|samples| - 1]) + [samples[|samples| - 1]]
    else Completed(samples[..|samples| - 1])
  }

  predicate RuntimeMatches(expected: RuntimeState, pids: Pids, r: Runtime) {
    && r.database == Some(expected) && r.api == Some(expected) && r.pids == Some(pids)
    && r.roleEvidenceValid && r.workerRole == Some(Worker) && r.workerCap == Some(expected.cap)
    && r.active.Some? && r.peak.Some? && 0 <= r.active.value <= r.peak.value <= expected.cap
  }

  /** The sample matches the expected state, every chat is in order and no anomaly is counted. */
  ghost predicate Clean(expected: RuntimeState, pids: Pids, s: Sample) {
    && RuntimeMatches(expected, pids, s.runtime)
    && (forall chat :: InOrder(s.jobs, chat))
    && s.loopStalls == 0 && s.stallEvents == []
    && s.duplicates == s.missing == s.orphans == s.stuck == s.sqliteLocks == 0
    && s.sessionConflicts == s.deepseek402 == s.ingestAnomalies == s.executionAnomalies == 0
  }

  predicate SameCounters(a: HealthTable, b: HealthTable) {
    && AllRoles(a) && AllRoles(b)
    && forall role | role in a.Keys :: a[role].stalls == b[role].stalls && a[role].captures == b[role].captures
  }

  function Health(s: Sample): HealthTable { Table(s.runtime.health) }

  /** Every reading has exactly the three roles, and the counters of any two readings agree. */
  predicate Steady(c: seq<Sample>) {
    && (forall i | 0 <= i < |c| && Reading(c[i]) :: AllRoles(Health(c[i])))
    && forall i, j | 0 <= i < j < |c| && Reading(c[i]) && Reading(c[j]) :: SameCounters(Health(c[i]), Health(c[j]))
  }

  ghost predicate Uninterrupted(samples: seq<Sample>) {
    && (forall i | 0 <= i < |samples| :: !samples[i].retryExhausted)
    && (forall i | 0 <= i < |samples| - 1 :: samples[i].runtime.complete || samples[i + 1].runtime.complete)
  }

  ghost predicate Sound(expected: RuntimeState, pids: Pids, samples: seq<Sample>) {
    && Uninterrupted(samples) && Steady(Completed(samples))
    && AllClean(expected, pids, Completed(samples))
  }

  ghost predicate AllClean(expected: RuntimeState, pids: Pids, c: seq<Sample>) {
    forall i | 0 <= i < |c| :: Clean(expected, pids, c[i])
  }

  function Chats(s: Sample): nat { |ClaimedChats(Traffic(s))| }

  /** By sample i some sample claimed two chats at once, and i's peak covers the most ever claimed. */
  predicate CrossChatAt(c: seq<Sample>, i: nat)
    requires i < |c|
  {
    && c[i].runtime.peak.Some?
    && (exists k | 0 <= k <= i :: Chats(c[k]) >= 2)
    && forall k | 0 <= k <= i :: Chats(c[k]) <= c[i].runtime.peak.value
  }

  predicate CrossChat(c: seq<Sample>) { exists i | 0 <= i < |c| :: CrossChatAt(c, i) }

  predicate Drained(c: seq<Sample>) { c != [] ==> c[|c| - 1].pending == 0 && c[|c| - 1].claimed == 0 }

  predicate Minimum(c: seq<Sample>) {
    && (exists i | 0 <= i < |c| :: c[i].rawMessages >= 5) && (exists i | 0 <= i < |c| :: c[i].chats >= 2)
    && (exists i | 0 <= i < |c| :: Peak(c[i]) >= 2) && (forall i | 0 <= i < |c| :: Peak(c[i]) <= 3)
    && CrossChat(c) && Drained(c)
  }

  // ---------------------------------------------------------------- loop health

  predicate HealthKept(last: Option<HealthTable>, c: seq<Sample>) {
    match last
    case None => forall i | 0 <= i < |c| :: !Reading(c[i])
    case Some(t) =>
      AgreeWith(c, t) && exists i | 0 <= i < |c| :: Reading(c[i])
  }

  lemma KeptIsSteady(last: Option<HealthTable>, c: seq<Sample>)
    requires HealthKept(last, c)
    ensures Steady(c)
  {
  }

  lemma DeltasNone(a: HealthTable, b: HealthTable)
    requires AllRoles(a) && AllRoles(b)
    ensures Deltas(a, b) == None <==> SameCounters(a, b)
  {
  }

  /** The readings so far all agree with one table. */
  predicate AgreeWith(c: seq<Sample>, t: HealthTable) {
    AllRoles(t) && forall i | 0 <= i < |c| && Reading(c[i]) :: SameCounters(Health(c[i]), t)
  }

  lemma SteadySnoc(c: seq<Sample>, s: Sample)
    ensures Steady(c + [s]) <==> Steady(c) && (Reading(s) ==> AgreeWith(c, Health(s)))
  {
    var more := c + [s];
    assert more[|c|] == s && forall i | 0 <= i < |c| :: more[i] == c[i];
    if Steady(more) {
      forall i, j | 0 <= i < j < |c| && Reading(c[i]) && Reading(c[j])
        ensures SameCounters(Health(c[i]), Health(c[j]))
      {
        assert Reading(more[i]) && Reading(more[j]);
      }
      forall i | 0 <= i < |c| && Reading(c[i]) ensures AllRoles(Health(c[i])) { assert Reading(more[i]); }
    }
  }

  lemma AgreeSnoc(c: seq<Sample>, s: Sample, t: HealthTable)
    ensures AgreeWith(c + [s], t) <==> AgreeWith(c, t) && (Reading(s) ==> SameCounters(Health(s), t))
  {
    var more := c + [s];
    assert more[|c|] == s && forall i | 0 <= i < |c| :: more[i] == c[i];
    if AgreeWith(more, t) {
      forall i | 0 <= i < |c| && Reading(c[i]) ensures SameCounters(Health(c[i]), t) { assert Reading(more[i]); }
    }
  }

  lemma AgreeMoves(c: seq<Sample>, a: HealthTable, b: HealthTable)
    requires AgreeWith(c, a) && AllRoles(b) && exists i | 0 <= i < |c| :: Reading(c[i])
    ensures AgreeWith(c, b) <==> SameCounters(a, b)
  {
    var i :| 0 <= i < |c| && Reading(c[i]);
    assert SameCounters(Health(c[i]), a);
  }

  lemma SomeReading(c: seq<Sample>, s: Sample)
    ensures (exists i | 0 <= i < |c + [s]| :: Reading((c + [s])[i])) <==>
      Reading(s) || exists i | 0 <= i < |c| :: Reading(c[i])
  {
    var more := c + [s];
    assert more[|c|] == s && forall i | 0 <= i < |c| :: more[i] == c[i];
    if i :| 0 <= i < |c| && Reading(c[i]) { assert Reading(more[i]); }
  }

  lemma HealthStep(last: Option<HealthTable>, c: seq<Sample>, s: Sample)
    requires LastOk(last) && HealthKept(last, c)
    ensures HealthCheck(last, s).1 == None <==> Steady(c + [s])
    ensures HealthCheck(last, s).1 == None ==> HealthKept(HealthCheck(last, s).0, c + [s])
  {
    KeptIsSteady(last, c);
    SteadySnoc(c, s);
    SomeReading(c, s);
    if !Reading(s) {
      if last.Some? { AgreeSnoc(c, s, last.value); }
    } else if AllRoles(Health(s)) {
      AgreeSnoc(c, s, Health(s));
      if last.Some? {
        DeltasNone(last.value, Health(s));
        AgreeMoves(c, last.value, Health(s));
      }
    }
  }

  // ---------------------------------------------------------------- one clean sample

  /** A sample is clean exactly when none of the tracker's own checks objects to it. */
  lemma CleanIff(expected: RuntimeState, pids: Pids, s: Sample)
    ensures Clean(expected, pids, s) <==>
      (RuntimeFailure(expected, pids, s.runtime) == None && Violations(s.jobs) == [] && EventFailure(s) == None &&
        Anomaly(s) == None)
  {
    ViolationsIff(s.jobs);
  }

  lemma CompleteStays(t: Tracker, s: Sample, c: seq<Sample>)
    requires t.failure == None && LastOk(t.lastHealth) && HealthKept(t.lastHealth, c)
    ensures var u := Complete(t, s).0;
      && (u.failure == None <==> Clean(t.expected, t.pids, s) && Steady(c + [s]))
      && (u.failure == None ==>
         u == Counted(t.(lastHealth := HealthCheck(t.lastHealth, s).0), s) && HealthKept(u.lastHealth, c + [s]))
  {
    HealthStep(t.lastHealth, c, s);
    CleanIff(t.expected, t.pids, s);
    CompleteIs(t, s);
  }

  lemma CompleteIs(t: Tracker, s: Sample)
    requires t.failure == None && LastOk(t.lastHealth)
    ensures var u := Complete(t, s).0;
      && (u.failure == None <==>
         (RuntimeFailure(t.expected, t.pids, s.runtime) == None && HealthCheck(t.lastHealth, s).1 == None
            && Violations(s.jobs) == [] && EventFailure(s) == None && Anomaly(s) == None))
      && (u.failure == None ==> u == Counted(t.(lastHealth := HealthCheck(t.lastHealth, s).0), s))
  {
  }

  // ---------------------------------------------------------------- the counters

  ghost predicate MaximaOk(t: Tracker, c: seq<Sample>) {
    && (t.rawMax >= 5 <==> exists i | 0 <= i < |c| :: c[i].rawMessages >= 5)
    && (t.chatMax >= 2 <==> exists i | 0 <= i < |c| :: c[i].chats >= 2)
    && (t.peakMax >= 2 <==> exists i | 0 <= i < |c| :: Peak(c[i]) >= 2)
    && (t.peakMax <= 3 <==> forall i | 0 <= i < |c| :: Peak(c[i]) <= 3)
  }

  lemma MaximaStep(t: Tracker, c: seq<Sample>, s: Sample)
    requires MaximaOk(t, c)
    ensures MaximaOk(Counted(t, s), c + [s])
  {
    var more := c + [s];
    assert more[|c|] == s && forall i | 0 <= i < |c| :: more[i] == c[i];
    if t.rawMax >= 5 {
      var i :| 0 <= i < |c| && c[i].rawMessages >= 5;
      assert more[i].rawMessages >= 5;
    }
    if t.chatMax >= 2 {
      var i :| 0 <= i < |c| && c[i].chats >= 2;
      assert more[i].chats >= 2;
    }
    if t.peakMax >= 2 {
      var i :| 0 <= i < |c| && Peak(c[i]) >= 2;
      assert Peak(more[i]) >= 2;
    }
    if t.peakMax > 3 {
      var i :| 0 <= i < |c| && Peak(c[i]) > 3;
      assert Peak(more[i]) > 3;
    }
  }

  ghost predicate ClaimsOk(t: Tracker, c: seq<Sample>) {
    && (forall k | 0 <= k < |c| :: Chats(c[k]) <= t.claimedChatsMax)
    && (t.claimedChatsMax == 0 || exists k | 0 <= k < |c| :: Chats(c[k]) == t.claimedChatsMax)
    && (t.crossChat <==> CrossChat(c))
    && (c == [] ==> t.pending == 0 && t.claimed == 0)
    && (c != [] ==> t.pending == c[|c| - 1].pending && t.claimed == c[|c| - 1].claimed)
  }

  lemma CrossChatAtPrefix(c: seq<Sample>, s: Sample, i: nat)
    requires i < |c|
    ensures CrossChatAt(c + [s], i) == CrossChatAt(c, i)
  {
    var more := c + [s];
    assert forall k | 0 <= k <= i :: more[k] == c[k];
  }

  lemma CrossChatSnoc(c: seq<Sample>, s: Sample)
    ensures CrossChat(c + [s]) <==> CrossChat(c) || CrossChatAt(c + [s], |c|)
  {
    forall i | 0 <= i < |c| ensures CrossChatAt(c + [s], i) == CrossChatAt(c, i) { CrossChatAtPrefix(c, s, i); }
    if CrossChat(c) {
      var i :| 0 <= i < |c| && CrossChatAt(c, i);
      assert CrossChatAt(c + [s], i);
    }
  }

  lemma ClaimsStep(t: Tracker, c: seq<Sample>, s: Sample)
    requires ClaimsOk(t, c)
    ensures ClaimsOk(Counted(t, s), c + [s])
  {
    var more, m := c + [s], Max(t.claimedChatsMax, Chats(s));
    assert more[|c|] == s && forall i | 0 <= i < |c| :: more[i] == c[i];
    assert forall k | 0 <= k < |more| :: Chats(more[k]) <= m;
    if m > 0 {
      var k: nat;
      if m == Chats(s) { k := |c|; } else { k :| k < |c| && Chats(c[k]) == m; }
      assert Chats(more[k]) == m;
      CrossChatSnoc(c, s);
      assert CrossChatAt(more, |c|) <==> (m >= 2 && s.runtime.peak.Some? && s.runtime.peak.value >= m);
    } else {
      CrossChatSnoc(c, s);
      assert !CrossChatAt(more, |c|);
    }
  }

  lemma CountersDecide(t: Tracker, c: seq<Sample>)
    requires MaximaOk(t, c) && ClaimsOk(t, c)
    ensures MinimumMet(t) <==> Minimum(c)
  {
  }

  // ---------------------------------------------------------------- the whole run

  ghost predicate Tracks(t: Tracker, expected: RuntimeState, pids: Pids, samples: seq<Sample>) {
    && t.expected == expected && t.pids == pids
    && t.incomplete == (if samples != [] && !samples[|samples| - 1].runtime.complete then 1 else 0)
    && HealthKept(t.lastHealth, Completed(samples)) && MaximaOk(t, Completed(samples))
    && ClaimsOk(t, Completed(samples))
  }

  lemma UninterruptedSnoc(samples: seq<Sample>, s: Sample)
    ensures Uninterrupted(samples + [s]) <==> (Uninterrupted(samples) && !s.retryExhausted
      && (samples == [] || samples[|samples| - 1].runtime.complete || s.runtime.complete))
  {
    var more := samples + [s];
    assert more[|samples|] == s && forall i | 0 <= i < |samples| :: more[i] == samples[i];
    if Uninterrupted(more) {
      forall i | 0 <= i < |samples| - 1 ensures samples[i].runtime.complete || samples[i + 1].runtime.complete {
        assert more[i].runtime.complete || more[i + 1].runtime.complete;
      }
      forall i | 0 <= i < |samples| ensures !samples[i].retryExhausted { assert !more[i].retryExhausted; }
      if samples != [] { assert more[|samples| - 1].runtime.complete || more[|samples| - 1 + 1].runtime.complete; }
    }
  }

  lemma CompletedSnoc(samples: seq<Sample>, s: Sample)
    ensures Completed(samples + [s]) == if s.runtime.complete then Completed(samples) + [s] else Completed(samples)
  {
    assert (samples + [s])[..|samples|] == samples;
  }

  lemma SoundSnoc(expected: RuntimeState, pids: Pids, samples: seq<Sample>, s: Sample)
    ensures Sound(expected, pids, samples + [s]) <==> (Sound(expected, pids, samples) && Uninterrupted(samples + [s])
      && (s.runtime.complete ==> Clean(expected, pids, s) && Steady(Completed(samples) + [s])))
  {
    UninterruptedSnoc(samples, s);
    CompletedSnoc(samples, s);
    SteadySnoc(Completed(samples), s);
    AllCleanSnoc(expected, pids, Completed(samples), s);
  }

  lemma AllCleanSnoc(expected: RuntimeState, pids: Pids, c: seq<Sample>, s: Sample)
    ensures AllClean(expected, pids, c + [s]) <==> AllClean(expected, pids, c) && Clean(expected, pids, s)
  {
    var more := c + [s];
    assert more[|c|] == s && forall i | 0 <= i < |c| :: more[i] == c[i];
    if AllClean(expected, pids, more) {
      forall i | 0 <= i < |c| ensures Clean(expected, pids, c[i]) { assert Clean(expected, pids, more[i]); }
      assert Clean(expected, pids, more[|c|]);
    }
  }

  lemma TracksComplete(t: Tracker, expected: RuntimeState, pids: Pids, samples: seq<Sample>, s: Sample)
    requires t.failure == None && LastOk(t.lastHealth) && Tracks(t, expected, pids, samples)
    requires s.runtime.complete && !s.retryExhausted
    ensures var u := Observe(t, s).0;
      && (u.failure == None <==> Clean(expected, pids, s) && Steady(Completed(samples) + [s]))
      && (u.failure == None ==> Tracks(u, expected, pids, samples + [s]))
  {
    var c, v := Completed(samples), t.(incomplete := 0);
    CompleteStays(v, s, c);
    CompletedSnoc(samples, s);
    var w := v.(lastHealth := HealthCheck(v.lastHealth, s).0);
    MaximaStep(w, c, s);
    ClaimsStep(w, c, s);
  }

  lemma TracksIncomplete(t: Tracker, expected: RuntimeState, pids: Pids, samples: seq<Sample>, s: Sample)
    requires t.failure == None && LastOk(t.lastHealth) && Tracks(t, expected, pids, samples)
    requires !s.runtime.complete && !s.retryExhausted
    ensures var u := Observe(t, s).0;
      && (u.failure == None <==> samples == [] || samples[|samples| - 1].runtime.complete)
      && (u.failure == None ==> Tracks(u, expected, pids, samples + [s]))
  {
    CompletedSnoc(samples, s);
  }

  lemma {:induction false} RunIs(expected: RuntimeState, pids: Pids, samples: seq<Sample>)
    ensures Observed(expected, pids, samples).failure == None <==> Sound(expected, pids, samples)
    ensures Sound(expected, pids, samples) ==> Tracks(Observed(expected, pids, samples), expected, pids, samples)
    decreases |samples|
  {
    if samples != [] {
      var init, s := samples[..|samples| - 1], samples[|samples| - 1];
      RunIs(expected, pids, init);
      assert samples == init + [s];
      SoundSnoc(expected, pids, init, s);
      UninterruptedSnoc(init, s);
      var t := Observed(expected, pids, init);
      if t.failure == None && !s.retryExhausted {
        if s.runtime.complete {
          TracksComplete(t, expected, pids, init, s);
        } else {
          TracksIncomplete(t, expected, pids, init, s);
        }
      }
    }
  }

  /** A run passes exactly when no retry was exhausted, no two neighbouring samples were incomplete,
      every complete sample was clean, the loop counters never moved, and the minimum was met. */
  lemma PassesIff(expected: RuntimeState, pids: Pids, samples: seq<Sample>)
    ensures Finalize(Observed(expected, pids, samples)).1.passed <==>
      Sound(expected, pids, samples) && Minimum(Completed(samples))
  {
    RunIs(expected, pids, samples);
    FailuresFail(expected, pids, samples);
    if Sound(expected, pids, samples) {
      CountersDecide(Observed(expected, pids, samples), Completed(samples));
    }
  }

  predicate FailedResult(f: Option<Result>) { f.Some? ==> f.value.failed && !f.value.passed }

  lemma CompleteFails(t: Tracker, s: Sample)
    requires t.failure == None && LastOk(t.lastHealth)
    ensures FailedResult(Complete(t, s).0.failure)
  {
  }

  /** A recorded failure is a failed result. */
  lemma {:induction false} FailuresFail(expected: RuntimeState, pids: Pids, samples: seq<Sample>)
    ensures FailedResult(Observed(expected, pids, samples).failure)
  {
    if samples != [] {
      var t, s := Observed(expected, pids, samples[..|samples| - 1]), samples[|samples| - 1];
      FailuresFail(expected, pids, samples[..|samples| - 1]);
      if t.failure == None { CompleteFails(t.(incomplete := 0), s); }
    }
  }

  /** What passing promises about the chats: in every complete sample, with distinct job ids, a claimed
      job is the least open job of its chat and the only one claimed there. */
  lemma PassedRunsKeepOrder(expected: RuntimeState, pids: Pids, samples: seq<Sample>, i: nat, j: Job)
    requires Finalize(Observed(expected, pids, samples)).1.passed
    requires i < |samples| && samples[i].runtime.complete && j in samples[i].jobs && j.status == Claimed
    requires forall a, b | a in samples[i].jobs && b in samples[i].jobs && a.id == b.id :: a == b
    ensures LeastOpen(samples[i].jobs, j.chat, j) && |ClaimedAt(samples[i].jobs, j.chat)| == 1
  {
    PassesIff(expected, pids, samples);
    var k := CompletedHas(samples, i);
    assert Clean(expected, pids, Completed(samples)[k]);
    assert InOrder(samples[i].jobs, j.chat);
    ClaimedIsLeast(samples[i].jobs, j.chat, j);
    var n :| 0 <= n < |samples[i].jobs| && samples[i].jobs[n] == j;
    assert n in ClaimedAt(samples[i].jobs, j.chat);
  }

  lemma {:induction false} CompletedHas(samples: seq<Sample>, i: nat) returns (k: nat)
    requires i < |samples| && samples[i].runtime.complete
    ensures k < |Completed(samples)| && Completed(samples)[k] == samples[i]
    decreases |samples|
  {
    if i == |samples| - 1 {
      k := |Completed(samples)| - 1;
    } else {
      k := CompletedHas(samples[..|samples| - 1], i);
    }
  }

  /** Once a failure is recorded, every later sample and the final verdict answer with that same failure. */
  lemma {:induction false} FailureIsSticky(t: Tracker, later: seq<Sample>)
    requires t.failure.Some? && LastOk(t.lastHealth)
    ensures After(t, later) == t && Finalize(After(t, later)) == (t, t.failure.value)
    ensures forall s :: Observe(After(t, later), s) == (t, t.failure.value)
    decreases |later|
  {
    if later != [] { FailureIsSticky(t, later[..|later| - 1]); }
  }

  function After(t: Tracker, later: seq<Sample>): (u: Tracker)
    requires LastOk(t.lastHealth)
    ensures LastOk(u.lastHealth)
  {
    if later == [] then t else Observe(After(t, later[..|later| - 1]), later[|later| - 1]).0
  }
}
