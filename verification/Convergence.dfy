/** Waiting for a new runtime setting to take: the convergence tracker and the loop that feeds it. */
module Convergence {
  import opened Options
  import opened Acceptance

  datatype Reading = Reading(elapsed: real, runtime: Runtime, limitApplied: Option<int>)

  datatype Target = Target(state: RuntimeState, pids: Pids, required: int, deadline: real, previous: Option<int>)

  datatype Exit = Converged | Failed | Incomplete

  function Required(t: Target): nat { if t.required < 1 then 1 else t.required }

  predicate Matches(t: Target, r: Reading) {
    && r.runtime.database == Some(t.state) && r.runtime.api == Some(t.state) && r.runtime.pids == Some(t.pids)
    && r.runtime.roleEvidenceValid && r.runtime.workerRole == Some(Worker) && r.runtime.workerCap == Some(t.state.cap)
    && r.runtime.active.Some? && r.runtime.peak.Some?
    && 0 <= r.runtime.active.value <= r.runtime.peak.value <= t.state.cap
    && (t.previous.Some? ==> r.limitApplied.Some? && r.limitApplied.value > t.previous.value)
  }

  datatype Verdict = Verdict(passed: bool, failed: bool, consecutive: nat)

  function Judge(t: Target, consecutive: nat, r: Reading): Verdict {
    if r.elapsed > t.deadline then Verdict(false, true, consecutive)
    else if !r.runtime.complete then Verdict(false, false, consecutive)
    else if !Matches(t, r) then Verdict(false, false, 0)
    else Verdict(consecutive + 1 >= Required(t), false, consecutive + 1)
  }

  /** The exit of the sample loop; a second neighbouring incomplete sample stops it before the tracker. */
  function Watch(t: Target, rs: seq<Reading>, consecutive: nat, incomplete: nat): Exit {
    if rs == [] then Incomplete
    else
      var missing := if rs[0].runtime.complete then 0 else incomplete + 1;
      if missing >= 2 then Incomplete
      else
        var v := Judge(t, consecutive, rs[0]);
        if v.passed then Converged else if v.failed then Failed else Watch(t, rs[1..], v.consecutive, missing)
  }

  class ConvergenceTracker {
    const target: Target
    var consecutive: nat

    constructor (target: Target)
      ensures this.target == target && consecutive == 0
    {
      this.target, consecutive := target, 0;
    }

    method ObserveReading(r: Reading) returns (v: Verdict)
      modifies this
      ensures v == Judge(target, old(consecutive), r) && consecutive == v.consecutive
    {
      if r.elapsed > target.deadline {
        return Verdict(false, true, consecutive);
      }
      if !r.runtime.complete {
        return Verdict(false, false, consecutive);
      }
      if !Matches(target, r) {
        consecutive := 0;
        return Verdict(false, false, 0);
      }
      consecutive := consecutive + 1;
      v := Verdict(consecutive >= Required(target), false, consecutive);
    }
  }

  method RunSamples(rs: seq<Reading>, tracker: ConvergenceTracker) returns (exit: Exit)
    requires tracker.consecutive == 0
    modifies tracker
    ensures exit == Watch(tracker.target, rs, 0, 0)
    ensures exit == Converged <==> exists n :: ConvergedAt(tracker.target, rs, n)
    ensures exit == Failed <==> exists n :: LateAt(tracker.target, rs, n)
  {
    ConvergedIff(tracker.target, rs);
    FailedIff(tracker.target, rs);
    var incomplete, n := 0, 0;
    while n < |rs|
      invariant 0 <= n <= |rs|
      invariant Watch(tracker.target, rs, 0, 0) == Watch(tracker.target, rs[n..], tracker.consecutive, incomplete)
    {
      assert rs[n..][1..] == rs[n + 1..];
      if !rs[n].runtime.complete {
        incomplete := incomplete + 1;
        if incomplete >= 2 {
          return Incomplete;
        }
      } else {
        incomplete := 0;
      }
      var v := tracker.ObserveReading(rs[n]);
      if v.passed {
        return Converged;
      }
      if v.failed {
        return Failed;
      }
      n := n + 1;
    }
    exit := Incomplete;
  }

  // ---------------------------------------------------------------- what convergence means

  function Completed(rs: seq<Reading>): seq<Reading> {
    if rs == [] then []
    else if rs[|rs| - 1].runtime.complete then Completed(rs[..|rs| - 1]) + [rs[|rs| - 1]]
    else Completed(rs[..|rs| - 1])
  }

  /** The reading shows the wanted state from both sides, the same processes, the worker at the wanted cap with
      its lanes within it, and a limit applied later than the one before. */
  predicate Arrived(t: Target, r: Reading) {
    && r.runtime.database == Some(t.state) && r.runtime.api == Some(t.state)
    && r.runtime.pids == Some(t.pids)
    && r.runtime.roleEvidenceValid && r.runtime.workerRole == Some(Worker)
    && r.runtime.workerCap == Some(t.state.cap)
    && r.runtime.active.Some? && r.runtime.peak.Some? && r.runtime.active.value >= 0
    && r.runtime.active.value <= r.runtime.peak.value && r.runtime.peak.value <= t.state.cap
    && (t.previous == None || (r.limitApplied.Some? && t.previous.value < r.limitApplied.value))
  }

  lemma ArrivedIff(t: Target, r: Reading)
    ensures Matches(t, r) <==> Arrived(t, r)
  {
  }

  /** The last so many complete samples exist and have all arrived. */
  predicate LastMatch(t: Target, c: seq<Reading>, count: nat) {
    count <= |c| && forall i | |c| - count <= i < |c| :: Arrived(t, c[i])
  }

  predicate InTime(t: Target, rs: seq<Reading>) {
    && (forall i | 0 <= i < |rs| :: rs[i].elapsed <= t.deadline)
    && (forall i | 0 <= i < |rs| - 1 :: rs[i].runtime.complete || rs[i + 1].runtime.complete)
  }

  /** Up to sample n nothing was late, no two neighbours were incomplete, and sample n completes a run
      of matching complete samples of the required length. */
  predicate ConvergedAt(t: Target, rs: seq<Reading>, n: int) {
    && 0 <= n < |rs| && InTime(t, rs[..n + 1]) && rs[n].runtime.complete
    && LastMatch(t, Completed(rs[..n + 1]), if t.required < 1 then 1 else t.required)
  }

  /** How many of the latest complete samples match in a row. */
  function Streak(t: Target, c: seq<Reading>): nat {
    if c == [] || !Matches(t, c[|c| - 1]) then 0 else Streak(t, c[..|c| - 1]) + 1
  }

  lemma {:induction false} StreakIs(t: Target, c: seq<Reading>, count: nat)
    ensures LastMatch(t, c, count) <==> Streak(t, c) >= count
    decreases |c|
  {
    if c != [] { ArrivedIff(t, c[|c| - 1]); }
    if c != [] && count > 0 && Matches(t, c[|c| - 1]) {
      var init := c[..|c| - 1];
      StreakIs(t, init, count - 1);
      if LastMatch(t, init, count - 1) {
        forall i | |c| - count <= i < |c| ensures Arrived(t, c[i]) {
          if i < |init| { assert c[i] == init[i]; }
        }
      }
    }
  }

  function Missing(rs: seq<Reading>): nat {
    if rs != [] && !rs[|rs| - 1].runtime.complete then 1 else 0
  }

  lemma InTimeSnoc(t: Target, p: seq<Reading>, r: Reading)
    ensures InTime(t, p + [r]) <==> InTime(t, p) && r.elapsed <= t.deadline && (Missing(p) == 0 || r.runtime.complete)
  {
    var more := p + [r];
    assert more[|p|] == r && forall i | 0 <= i < |p| :: more[i] == p[i];
    if InTime(t, more) {
      if p != [] { assert more[|p| - 1].runtime.complete || more[|p| - 1 + 1].runtime.complete; }
      forall i | 0 <= i < |p| - 1 ensures p[i].runtime.complete || p[i + 1].runtime.complete {
        assert more[i].runtime.complete || more[i + 1].runtime.complete;
      }
      forall i | 0 <= i < |p| ensures p[i].elapsed <= t.deadline { assert more[i].elapsed <= t.deadline; }
    }
  }

  lemma InTimePrefix(t: Target, rs: seq<Reading>, k: nat)
    requires k <= |rs| && InTime(t, rs)
    ensures InTime(t, rs[..k])
  {
  }

  lemma CompletedSnoc(p: seq<Reading>, r: Reading)
    ensures Completed(p + [r]) == if r.runtime.complete then Completed(p) + [r] else Completed(p)
  {
    assert (p + [r])[..|p|] == p;
  }

  lemma StreakSnoc(t: Target, c: seq<Reading>, r: Reading)
    ensures Streak(t, c + [r]) == if Matches(t, r) then Streak(t, c) + 1 else 0
  {
    assert (c + [r])[..|c|] == c;
  }

  /** The tracker's next verdict is about the samples so far and the next one. */
  lemma VerdictIs(t: Target, p: seq<Reading>, r: Reading)
    requires r.elapsed <= t.deadline && InTime(t, p) && (Missing(p) == 0 || r.runtime.complete)
    ensures var v := Judge(t, Streak(t, Completed(p)), r);
      && !v.failed && v.consecutive == Streak(t, Completed(p + [r]))
      && (v.passed <==> ConvergedAt(t, p + [r], |p|))
  {
    InTimeSnoc(t, p, r);
    CompletedSnoc(p, r);
    StreakSnoc(t, Completed(p), r);
    StreakIs(t, Completed(p + [r]), Required(t));
    assert (p + [r])[..|p| + 1] == p + [r];
  }

  lemma SamePrefix(t: Target, rs: seq<Reading>, k: nat, n: int)
    requires k <= |rs| && n < k
    ensures ConvergedAt(t, rs, n) <==> ConvergedAt(t, rs[..k], n)
  {
    if n >= 0 { assert rs[..k][..n + 1] == rs[..n + 1]; }
  }

  lemma NeverAfterStop(t: Target, rs: seq<Reading>, k: nat, n: int)
    requires k < |rs| && k <= n && !InTime(t, rs[..k + 1])
    ensures !ConvergedAt(t, rs, n)
  {
    if ConvergedAt(t, rs, n) {
      InTimePrefix(t, rs[..n + 1], k + 1);
    }
  }

  lemma {:induction false} WatchIs(t: Target, rs: seq<Reading>, k: nat)
    requires k <= |rs| && InTime(t, rs[..k]) && (forall n | n < k :: !ConvergedAt(t, rs, n))
    ensures Watch(t, rs[k..], Streak(t, Completed(rs[..k])), Missing(rs[..k])) == Converged <==>
      exists n :: ConvergedAt(t, rs, n)
    decreases |rs| - k
  {
    if k < |rs| {
      var p, r := rs[..k], rs[k];
      assert rs[..k + 1] == p + [r] && rs[k..][0] == r && rs[k..][1..] == rs[k + 1..];
      InTimeSnoc(t, p, r);
      if InTime(t, p + [r]) {
        VerdictIs(t, p, r);
        SamePrefix(t, rs, k + 1, k);
        if !ConvergedAt(t, rs, k) { WatchIs(t, rs, k + 1); }
      } else {
        forall n ensures !ConvergedAt(t, rs, n) { if n >= k { NeverAfterStop(t, rs, k, n); } }
      }
    }
  }

  /** The loop reports convergence exactly when at some sample, with nothing late and no two neighbours
      incomplete before it, the latest complete samples matched the target the required number of times. */
  lemma ConvergedIff(t: Target, rs: seq<Reading>)
    ensures Watch(t, rs, 0, 0) == Converged <==> exists n :: ConvergedAt(t, rs, n)
  {
    assert rs[0..] == rs && rs[..0] == [];
    WatchIs(t, rs, 0);
  }

  /** Sample n is the first to come after the deadline, before which nothing converged and no two neighbours
      were incomplete. */
  predicate LateAt(t: Target, rs: seq<Reading>, n: int) {
    && 0 <= n < |rs| && InTime(t, rs[..n]) && rs[n].elapsed > t.deadline
    && (n > 0 ==> rs[n - 1].runtime.complete || rs[n].runtime.complete)
    && forall k | 0 <= k < n :: !ConvergedAt(t, rs, k)
  }

  lemma LateIsFirst(t: Target, rs: seq<Reading>, k: nat, n: int)
    requires k < |rs| && k < n && (!InTime(t, rs[..k + 1]) || ConvergedAt(t, rs, k))
    ensures !LateAt(t, rs, n)
  {
    if 0 <= n < |rs| && InTime(t, rs[..n]) {
      InTimePrefix(t, rs[..n], k + 1);
      assert rs[..n][..k + 1] == rs[..k + 1];
    }
  }

  /** The sample loop after k samples fails exactly when a later one is the first after the deadline. */
  lemma {:induction false} WatchFails(t: Target, rs: seq<Reading>, k: nat)
    requires k <= |rs| && InTime(t, rs[..k]) && (forall n | n < k :: !ConvergedAt(t, rs, n))
    ensures Watch(t, rs[k..], Streak(t, Completed(rs[..k])), Missing(rs[..k])) == Failed <==>
      exists n :: k <= n && LateAt(t, rs, n)
    decreases |rs| - k
  {
    if k < |rs| {
      var p, r := rs[..k], rs[k];
      assert rs[..k + 1] == p + [r] && rs[k..][0] == r && rs[k..][1..] == rs[k + 1..];
      InTimeSnoc(t, p, r);
      if InTime(t, p + [r]) {
        VerdictIs(t, p, r);
        SamePrefix(t, rs, k + 1, k);
        if ConvergedAt(t, rs, k) {
          forall n | k <= n ensures !LateAt(t, rs, n) { if k < n { LateIsFirst(t, rs, k, n); } }
        } else {
          WatchFails(t, rs, k + 1);
          if n :| k <= n && LateAt(t, rs, n) { assert n != k; }
        }
      } else if Missing(p) == 0 || r.runtime.complete {
        assert LateAt(t, rs, k);
      } else {
        assert k > 0 && p[|p| - 1] == rs[k - 1];
        forall n | k <= n ensures !LateAt(t, rs, n) { if k < n { LateIsFirst(t, rs, k, n); } }
      }
    }
  }

  /** The loop fails exactly when a sample comes after the deadline before anything has converged and before
      two neighbours were incomplete; in every other case that does not converge it is incomplete. */
  lemma FailedIff(t: Target, rs: seq<Reading>)
    ensures Watch(t, rs, 0, 0) == Failed <==> exists n :: LateAt(t, rs, n)
  {
    assert rs[0..] == rs && rs[..0] == [];
    WatchFails(t, rs, 0);
    if n :| LateAt(t, rs, n) { assert 0 <= n; }
  }

  /** One reading: after the deadline the tracker fails and keeps its streak, an incomplete one is passed over,
      one that has not arrived starts it again, and one that has may complete it. */
  lemma JudgeIs(t: Target, consecutive: nat, r: Reading)
    ensures var v := Judge(t, consecutive, r);
      && (v.failed <==> t.deadline < r.elapsed)
      && (v.consecutive == if v.failed || !r.runtime.complete then consecutive
                           else if Arrived(t, r) then consecutive + 1 else 0)
      && (v.passed <==> !v.failed && r.runtime.complete && Arrived(t, r) && consecutive + 1 >= t.required)
  {
    ArrivedIff(t, r);
  }
}
