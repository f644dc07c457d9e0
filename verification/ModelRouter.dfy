/** Trying the models of a chain in order until one answers, inside one shared time budget. */
module ModelRouter {
  import opened Options

  datatype Model = Model(id: string, name: string)

  datatype Value = Value(text: string)

  datatype Error = Error(text: string, kind: string)

  /** What one attempt did, and how much clock passed until the router looked again. */
  datatype Attempt = Answered(value: Value, took: real) | Raised(error: Error, took: real)

  datatype Failure = Failure(id: string, name: string, message: string)

  datatype Result = Result(
    model: Option<Model>, value: Option<Value>, fallbackFrom: seq<string>, failures: seq<Failure>, skipped: seq<string>)

  predicate Succeeded(r: Result) { r.model.Some? }

  /** The chain, the budget, the least time worth starting a model with, the classifier, and the
      attempts: what calling model i with a deadline would do. */
  datatype Job = Job(
    chain: seq<Model>, budget: Option<real>, least: real, movesOn: Error -> bool,
      attempt: (nat, Option<real>) -> Attempt)

  /** The deadline one started attempt was given, and the time it took. */
  datatype Lap = Lap(deadline: Option<real>, took: real)

  datatype Run = Run(result: Result, laps: seq<Lap>)

  function Ids(models: seq<Model>): (r: seq<string>)
    ensures |r| == |models| && forall i | 0 <= i < |r| :: r[i] == models[i].id
  {
    seq(|models|, i requires 0 <= i < |models| => models[i].id)
  }

  function Min(a: real, b: real): real { if a < b then a else b }

  function Max(a: real, b: real): real { if a < b then b else a }

  function Deadline(job: Job, elapsed: real): Option<real> {
    match job.budget
    case None => None
    case Some(b) => Some(Max(0.0, Min(b, b - elapsed)))
  }

  predicate TooLate(job: Job, i: nat, elapsed: real) {
    job.budget.Some? && i > 0 && job.budget.value - elapsed < job.least
  }

  function FailureOf(m: Model, e: Error): Failure {
    Failure(m.id, m.name, if e.text == "" then e.kind else e.text)
  }

  /** The chain from model i on, with what was collected before it. */
  function RunFrom(job: Job, i: nat, elapsed: real, from: seq<string>, failures: seq<Failure>, laps: seq<Lap>): Run
    requires i <= |job.chain|
    decreases |job.chain| - i
  {
    if i == |job.chain| then Run(Result(None, None, from, failures, []), laps)
    else if TooLate(job, i, elapsed) then Run(Result(None, None, from, failures, Ids(job.chain[i..])), laps)
    else
      var m, d := job.chain[i], Deadline(job, elapsed);
      var a := job.attempt(i, d);
      var more := laps + [Lap(d, a.took)];
      match a
      case Answered(value, _) => Run(Result(Some(m), Some(value), from, failures, []), more)
      case Raised(e, took) =>
        var failed := failures + [FailureOf(m, e)];
        if !job.movesOn(e) then Run(Result(None, None, from, failed, []), more)
        else RunFrom(job, i + 1, elapsed + took, if i + 1 < |job.chain| then from + [m.id] else from, failed, more)
  }

  function Route(job: Job): Run { RunFrom(job, 0, 0.0, [], [], []) }

  // ---------------------------------------------------------------- the synchronous loop

  method RunWithFallback(job: Job) returns (r: Result)
    ensures r == Route(job).result
  {
    var failures: seq<Failure>, from: seq<string> := [], [];
    var elapsed := 0.0;
    ghost var laps: seq<Lap> := [];
    var i := 0;
    while i < |job.chain|
      invariant 0 <= i <= |job.chain|
      invariant Route(job) == RunFrom(job, i, elapsed, from, failures, laps)
    {
      var m := job.chain[i];
      var deadline: Option<real> := None;
      if job.budget.Some? {
        var remaining := job.budget.value - elapsed;
        if i > 0 && remaining < job.least {
          return Result(None, None, from, failures, Ids(job.chain[i..]));
        }
        deadline := Some(Max(0.0, Min(job.budget.value, remaining)));
      }
      var a := job.attempt(i, deadline);
      laps := laps + [Lap(deadline, a.took)];
      elapsed := elapsed + a.took;
      match a
      case Raised(e, _) =>
        failures := failures + [FailureOf(m, e)];
        if !job.movesOn(e) {
          return Result(None, None, from, failures, []);
        }
        if i + 1 < |job.chain| {
          from := from + [m.id];
        }
        i := i + 1;
      case Answered(value, _) =>
        return Result(Some(m), Some(value), from, failures, []);
    }
    r := Result(None, None, from, failures, []);
  }

  // ---------------------------------------------------------------- the awaiting form

  /** Suspended at an await, or finished. */
  datatype Await = Waiting(deadline: Option<real>) | Done(result: Result)

  /** The coroutine between two resumptions: other tasks run while it waits, and touch none of this. */
  class AwaitingRouter {
    const job: Job
    var index: nat
    var elapsed: real
    var from: seq<string>
    var failures: seq<Failure>
    var state: Await
    ghost var laps: seq<Lap>

    ghost predicate Valid()
      reads this
    {
      && index <= |job.chain|
      && match state
         case Done(r) => r == Route(job).result
         case Waiting(d) =>
           && index < |job.chain| && !TooLate(job, index, elapsed) && d == Deadline(job, elapsed)
           && Route(job) == RunFrom(job, index, elapsed, from, failures, laps)
    }

    constructor (job: Job)
      ensures Valid() && this.job == job
    {
      this.job := job;
      index, elapsed, from, failures, laps := 0, 0.0, [], [], [];
      state := if job.chain == [] then Done(Result(None, None, [], [], [])) else Waiting(Deadline(job, 0.0));
    }

    /** Run on from an outcome to the next await or to the end. */
    method Resume(a: Attempt)
      requires Valid() && state.Waiting? && a == job.attempt(index, state.deadline)
      modifies this
      ensures Valid() && (state.Waiting? ==> index == old(index) + 1)
    {
      var m := job.chain[index];
      laps := laps + [Lap(state.deadline, a.took)];
      match a
      case Answered(value, _) =>
        state := Done(Result(Some(m), Some(value), from, failures, []));
      case Raised(e, took) =>
        failures := failures + [FailureOf(m, e)];
        if !job.movesOn(e) {
          state := Done(Result(None, None, from, failures, []));
          return;
        }
        if index + 1 < |job.chain| {
          from := from + [m.id];
        }
        index, elapsed := index + 1, elapsed + took;
        assert Route(job) == RunFrom(job, index, elapsed, from, failures, laps);
        if index == |job.chain| {
          state := Done(Result(None, None, from, failures, []));
        } else if TooLate(job, index, elapsed) {
          state := Done(Result(None, None, from, failures, Ids(job.chain[index..])));
        } else {
          state := Waiting(Deadline(job, elapsed));
        }
    }
  }

  /** Awaiting every attempt gives the very result the synchronous loop gives. */
  method AsyncRunWithFallback(job: Job) returns (r: Result)
    ensures r == Route(job).result
  {
    var router := new AwaitingRouter(job);
    while router.state.Waiting?
      invariant router.Valid() && router.job == job
      decreases if router.state.Waiting? then 1 + |job.chain| - router.index else 0
    {
      router.Resume(job.attempt(router.index, router.state.deadline));
    }
    r := router.state.result;
  }

  // ---------------------------------------------------------------- how the chain is split

  function Total(laps: seq<Lap>): real {
    if laps == [] then 0.0 else Total(laps[..|laps| - 1]) + laps[|laps| - 1].took
  }

  lemma TotalSnoc(laps: seq<Lap>, l: Lap)
    ensures Total(laps + [l]) == Total(laps) + l.took
  {
    assert (laps + [l])[..|laps|] == laps;
  }

  /** What is left of the budget, never more than the whole of it and never less than nothing. */
  predicate LeftOf(job: Job, elapsed: real, deadline: Option<real>) {
    match job.budget
    case None => deadline == None
    case Some(b) =>
      var left := b - elapsed;
      deadline == Some(if b <= 0.0 || left <= 0.0 then 0.0 else if left < b then left else b)
  }

  /** Only the first model is started without enough time left for one. */
  predicate Worthwhile(job: Job, k: nat, elapsed: real) {
    k > 0 && job.budget.Some? ==> job.least <= job.budget.value - elapsed
  }

  /** Attempt k was worth starting, was made with what was left of the budget, and took that lap's time. */
  predicate Tried(job: Job, laps: seq<Lap>, k: nat)
    requires k < |laps|
  {
    && Worthwhile(job, k, Total(laps[..k])) && LeftOf(job, Total(laps[..k]), laps[k].deadline)
    && laps[k].took == job.attempt(k, laps[k].deadline).took
  }

  /** Model k was tried, failed, and is reported with its own error. */
  predicate FailedAt(job: Job, laps: seq<Lap>, failures: seq<Failure>, k: nat)
    requires k < |laps| && k < |failures| && k < |job.chain|
  {
    var a := job.attempt(k, laps[k].deadline);
    && Tried(job, laps, k) && a.Raised?
    && failures[k] == Failure(job.chain[k].id, job.chain[k].name,
                        if a.error.text == "" then a.error.kind else a.error.text)
  }

  predicate MovedOn(job: Job, laps: seq<Lap>, k: nat)
    requires k < |laps|
  {
    var a := job.attempt(k, laps[k].deadline);
    a.Raised? && job.movesOn(a.error)
  }

  datatype Ending = ModelAnswered | BudgetSpent | ClassifierStopped | ChainEnded

  /** The first n models were tried in order and failed, and all but perhaps the last let the chain go on. */
  ghost predicate FirstFailed(job: Job, r: Run, n: nat) {
    && n <= |job.chain| && |r.result.failures| == n <= |r.laps|
    && (forall k: nat | k < n :: FailedAt(job, r.laps, r.result.failures, k))
    && forall k: nat | k + 1 < n :: MovedOn(job, r.laps, k)
  }

  /** The chain cut after its first n models, and why it was cut there. */
  ghost predicate SplitAt(job: Job, r: Run, n: nat, ending: Ending) {
    && FirstFailed(job, r, n)
    && match ending
       case ModelAnswered =>
         && n < |job.chain| && |r.laps| == n + 1 && Tried(job, r.laps, n)
         && job.attempt(n, r.laps[n].deadline).Answered?
         && r.result.model == Some(job.chain[n]) && r.result.value == Some(job.attempt(n, r.laps[n].deadline).value)
         && (n > 0 ==> MovedOn(job, r.laps, n - 1)) && r.result.skipped == []
         && r.result.fallbackFrom == Ids(job.chain[..n])
       case BudgetSpent =>
         && 0 < n < |job.chain| && |r.laps| == n && !Worthwhile(job, n, Total(r.laps)) && MovedOn(job, r.laps, n - 1)
         && !Succeeded(r.result) && r.result.skipped == Ids(job.chain[n..])
         && r.result.fallbackFrom == Ids(job.chain[..n])
       case ClassifierStopped =>
         && 0 < n && |r.laps| == n && !MovedOn(job, r.laps, n - 1)
         && !Succeeded(r.result) && r.result.skipped == [] && r.result.fallbackFrom == Ids(job.chain[..n - 1])
       case ChainEnded =>
         && n == |job.chain| && |r.laps| == n && (n > 0 ==> MovedOn(job, r.laps, n - 1))
         && !Succeeded(r.result) && r.result.skipped == []
         && r.result.fallbackFrom == Ids(job.chain[..if n == 0 then 0 else n - 1])
  }

  /** What has been collected when model i is reached. */
  ghost predicate Collected(job: Job, i: nat, elapsed: real, from: seq<string>, failures: seq<Failure>,
      laps: seq<Lap>) {
    && i <= |job.chain| && |failures| == |laps| == i && elapsed == Total(laps)
    && (forall k: nat | k < i :: FailedAt(job, laps, failures, k) && MovedOn(job, laps, k))
    && from == Ids(job.chain[..if i == |job.chain| && i > 0 then i - 1 else i])
  }

  lemma DeadlineIsLeft(job: Job, elapsed: real)
    ensures LeftOf(job, elapsed, Deadline(job, elapsed))
  {
  }

  lemma NotTooLateIff(job: Job, i: nat, elapsed: real)
    ensures TooLate(job, i, elapsed) <==> !Worthwhile(job, i, elapsed)
  {
  }

  lemma TriedNext(job: Job, elapsed: real, laps: seq<Lap>)
    requires elapsed == Total(laps) && !TooLate(job, |laps|, elapsed)
    ensures var more := laps + [Lap(Deadline(job, elapsed), job.attempt(|laps|, Deadline(job, elapsed)).took)];
      && Tried(job, more, |laps|) && Total(more) == elapsed + more[|laps|].took
      && forall k: nat | k < |laps| :: more[k] == laps[k] && more[..k] == laps[..k]
  {
    var l := Lap(Deadline(job, elapsed), job.attempt(|laps|, Deadline(job, elapsed)).took);
    TotalSnoc(laps, l);
    DeadlineIsLeft(job, elapsed);
    NotTooLateIff(job, |laps|, elapsed);
    assert (laps + [l])[..|laps|] == laps && (laps + [l])[|laps|] == l;
    forall k: nat | k < |laps| ensures (laps + [l])[..k] == laps[..k] {
    }
  }

  lemma FailedNext(job: Job, i: nat, elapsed: real, from: seq<string>, failures: seq<Failure>, laps: seq<Lap>)
    requires i < |job.chain| && Collected(job, i, elapsed, from, failures, laps) && !TooLate(job, i, elapsed)
    requires job.attempt(i, Deadline(job, elapsed)).Raised?
    ensures var a := job.attempt(i, Deadline(job, elapsed));
      var more, failed := laps + [Lap(Deadline(job, elapsed), a.took)], failures + [FailureOf(job.chain[i], a.error)];
      && (forall k: nat | k < i + 1 :: FailedAt(job, more, failed, k))
      && (forall k: nat | k < i :: MovedOn(job, more, k))
      && (MovedOn(job, more, i) <==> job.movesOn(a.error)) && Total(more) == elapsed + a.took
  {
    TriedNext(job, elapsed, laps);
    var a := job.attempt(i, Deadline(job, elapsed));
    var more, failed := laps + [Lap(Deadline(job, elapsed), a.took)], failures + [FailureOf(job.chain[i], a.error)];
    forall k: nat | k < i ensures FailedAt(job, more, failed, k) && MovedOn(job, more, k) {
      assert FailedAt(job, laps, failures, k) && MovedOn(job, laps, k);
    }
  }

  function FromNext(job: Job, i: nat, from: seq<string>): seq<string>
    requires i < |job.chain|
  {
    if i + 1 < |job.chain| then from + [job.chain[i].id] else from
  }

  lemma CollectedNext(job: Job, i: nat, elapsed: real, from: seq<string>, failures: seq<Failure>, laps: seq<Lap>)
    requires i < |job.chain| && Collected(job, i, elapsed, from, failures, laps) && !TooLate(job, i, elapsed)
    requires var a := job.attempt(i, Deadline(job, elapsed)); a.Raised? && job.movesOn(a.error)
    ensures var a := job.attempt(i, Deadline(job, elapsed));
      Collected(job, i + 1, elapsed + a.took, FromNext(job, i, from), failures + [FailureOf(job.chain[i], a.error)],
                laps + [Lap(Deadline(job, elapsed), a.took)])
  {
    FailedNext(job, i, elapsed, from, failures, laps);
    assert i + 1 < |job.chain| ==> job.chain[..i + 1] == job.chain[..i] + [job.chain[i]];
  }

  lemma AnsweredHere(job: Job, i: nat, elapsed: real, from: seq<string>, failures: seq<Failure>, laps: seq<Lap>)
    requires i < |job.chain| && Collected(job, i, elapsed, from, failures, laps) && !TooLate(job, i, elapsed)
    requires job.attempt(i, Deadline(job, elapsed)).Answered?
    ensures var a := job.attempt(i, Deadline(job, elapsed));
      SplitAt(job, Run(Result(Some(job.chain[i]), Some(a.value), from, failures, []),
        laps + [Lap(Deadline(job, elapsed), a.took)]), i, ModelAnswered)
  {
    TriedNext(job, elapsed, laps);
    var more := laps + [Lap(Deadline(job, elapsed), job.attempt(i, Deadline(job, elapsed)).took)];
    forall k: nat | k < i ensures FailedAt(job, more, failures, k) && MovedOn(job, more, k) {
      assert FailedAt(job, laps, failures, k) && MovedOn(job, laps, k);
    }
  }

  lemma EndedHere(job: Job, i: nat, elapsed: real, from: seq<string>, failures: seq<Failure>, laps: seq<Lap>)
    requires i <= |job.chain| && Collected(job, i, elapsed, from, failures, laps) &&
      (i == |job.chain| || TooLate(job, i, elapsed))
    ensures i == |job.chain| ==> SplitAt(job, Run(Result(None, None, from, failures, []), laps), i, ChainEnded)
    ensures i < |job.chain| ==>
      SplitAt(job, Run(Result(None, None, from, failures, Ids(job.chain[i..])), laps), i, BudgetSpent)
  {
  }

  lemma StoppedHere(job: Job, i: nat, elapsed: real, from: seq<string>, failures: seq<Failure>, laps: seq<Lap>)
    requires i < |job.chain| && Collected(job, i, elapsed, from, failures, laps) && !TooLate(job, i, elapsed)
    requires var a := job.attempt(i, Deadline(job, elapsed)); a.Raised? && !job.movesOn(a.error)
    ensures var a := job.attempt(i, Deadline(job, elapsed));
      SplitAt(job, Run(Result(None, None, from, failures + [FailureOf(job.chain[i], a.error)], []),
                       laps + [Lap(Deadline(job, elapsed), a.took)]), i + 1, ClassifierStopped)
  {
    FailedNext(job, i, elapsed, from, failures, laps);
  }

  lemma {:induction false} SplitFrom(job: Job, i: nat, elapsed: real, from: seq<string>, failures: seq<Failure>,
      laps: seq<Lap>)
    returns (n: nat, ending: Ending)
    requires i <= |job.chain| && Collected(job, i, elapsed, from, failures, laps)
    ensures SplitAt(job, RunFrom(job, i, elapsed, from, failures, laps), n, ending)
    decreases |job.chain| - i
  {
    if i == |job.chain| || TooLate(job, i, elapsed) {
      EndedHere(job, i, elapsed, from, failures, laps);
      n, ending := i, if i == |job.chain| then ChainEnded else BudgetSpent;
    } else {
      var a := job.attempt(i, Deadline(job, elapsed));
      if a.Answered? {
        AnsweredHere(job, i, elapsed, from, failures, laps);
        n, ending := i, ModelAnswered;
      } else if job.movesOn(a.error) {
        CollectedNext(job, i, elapsed, from, failures, laps);
        n, ending := SplitFrom(job, i + 1, elapsed + a.took, FromNext(job, i, from),
          failures + [FailureOf(job.chain[i], a.error)],
          laps + [Lap(Deadline(job, elapsed), a.took)]);
        GoesOn(job, i, elapsed, from, failures, laps);
      } else {
        StoppedHere(job, i, elapsed, from, failures, laps);
        n, ending := i + 1, ClassifierStopped;
      }
    }
  }

  lemma GoesOn(job: Job, i: nat, elapsed: real, from: seq<string>, failures: seq<Failure>, laps: seq<Lap>)
    requires i < |job.chain| && !TooLate(job, i, elapsed)
    requires var a := job.attempt(i, Deadline(job, elapsed)); a.Raised? && job.movesOn(a.error)
    ensures var a := job.attempt(i, Deadline(job, elapsed));
      RunFrom(job, i, elapsed, from, failures, laps) == RunFrom(job, i + 1, elapsed + a.took, FromNext(job, i, from),
        failures + [FailureOf(job.chain[i], a.error)], laps + [Lap(Deadline(job, elapsed), a.took)])
  {
  }

  /** Every run splits the chain exactly: the first models tried in order, each with what was left of the
      budget and reported with its own error; then the answering model with its answer, or the models
      skipped for budget, or a stop by the classifier, or the end of the chain. */
  lemma ChainIsSplit(job: Job)
    ensures exists n: nat, ending :: SplitAt(job, Route(job), n, ending)
  {
    var n, ending := SplitFrom(job, 0, 0.0, [], [], []);
    assert SplitAt(job, Route(job), n, ending);
  }

  // ---------------------------------------------------------------- the shared budget

  /** An attempt takes time, and overruns its deadline by at most e. */
  ghost predicate Bounded(job: Job, e: real) {
    forall i: nat, d: real | d >= 0.0 :: 0.0 <= job.attempt(i, Some(d)).took <= d + e
  }

  predicate Overran(l: Lap) { l.deadline.Some? && l.took > l.deadline.value }

  /** No lap but the last overran its deadline. */
  predicate OnlyLastOverran(laps: seq<Lap>) {
    forall i | 0 <= i < |laps| - 1 :: !Overran(laps[i])
  }

  predicate NoneOverran(laps: seq<Lap>) { forall i | 0 <= i < |laps| :: !Overran(laps[i]) }

  /** How far past the budget a model may still be started: nothing, unless the least is negative. */
  function Limit(job: Job): real
    requires job.budget.Some?
  {
    Max(0.0, job.budget.value) + Max(0.0, -job.least)
  }

  predicate InTime(job: Job, i: nat, elapsed: real, laps: seq<Lap>) {
    job.budget.Some? && elapsed == Total(laps) && elapsed >= 0.0 && (i == 0 ==> elapsed == 0.0 && laps == [])
  }

  lemma InTimeNext(job: Job, e: real, i: nat, elapsed: real, laps: seq<Lap>, took: real)
    requires Bounded(job, e) && InTime(job, i, elapsed, laps) && !TooLate(job, i, elapsed)
    requires took == job.attempt(i, Deadline(job, elapsed)).took
    ensures InTime(job, i + 1, elapsed + took, laps + [Lap(Deadline(job, elapsed), took)])
    ensures elapsed + took <= Limit(job) + e
  {
    var d := Deadline(job, elapsed);
    assert 0.0 <= job.attempt(i, Some(d.value)).took <= d.value + e;
    TotalSnoc(laps, Lap(d, took));
  }

  lemma {:induction false} BudgetFrom(job: Job, e: real, i: nat, elapsed: real, from: seq<string>,
      failures: seq<Failure>, laps: seq<Lap>)
    requires i <= |job.chain| && Bounded(job, e) && InTime(job, i, elapsed, laps) && elapsed <= Limit(job) + e
    ensures Total(RunFrom(job, i, elapsed, from, failures, laps).laps) <= Limit(job) + e
    decreases |job.chain| - i
  {
    if i < |job.chain| && !TooLate(job, i, elapsed) {
      var d := Deadline(job, elapsed);
      var a := job.attempt(i, d);
      InTimeNext(job, e, i, elapsed, laps, a.took);
      if a.Raised? && job.movesOn(a.error) {
        BudgetFrom(job, e, i + 1, elapsed + a.took, if i + 1 < |job.chain| then from + [job.chain[i].id] else from,
          failures + [FailureOf(job.chain[i], a.error)], laps + [Lap(d, a.took)]);
      }
    }
  }

  /** Either no lap has overrun yet, or the budget is gone and the next model will not start. */
  predicate AtMostLast(job: Job, i: nat, elapsed: real, laps: seq<Lap>) {
    && job.budget.Some? && OnlyLastOverran(laps)
    && (NoneOverran(laps) || (i > 0 && job.budget.value - elapsed < 0.0))
  }

  lemma AtMostLastNext(job: Job, i: nat, elapsed: real, laps: seq<Lap>, took: real)
    requires job.least >= 0.0 && AtMostLast(job, i, elapsed, laps) && !TooLate(job, i, elapsed) && elapsed >= 0.0
    ensures AtMostLast(job, i + 1, elapsed + took, laps + [Lap(Deadline(job, elapsed), took)])
  {
    var d := Deadline(job, elapsed);
    var more := laps + [Lap(d, took)];
    assert forall k | 0 <= k < |laps| :: more[k] == laps[k];
    assert NoneOverran(laps);
    if !Overran(more[|laps|]) { assert NoneOverran(more); }
  }

  lemma {:induction false} LastFrom(job: Job, e: real, i: nat, elapsed: real, from: seq<string>, failures: seq<Failure>,
      laps: seq<Lap>)
    requires i <= |job.chain| && job.least >= 0.0 && Bounded(job, e)
    requires InTime(job, i, elapsed, laps) && AtMostLast(job, i, elapsed, laps)
    ensures OnlyLastOverran(RunFrom(job, i, elapsed, from, failures, laps).laps)
    decreases |job.chain| - i
  {
    if i < |job.chain| && !TooLate(job, i, elapsed) {
      var d := Deadline(job, elapsed);
      var a := job.attempt(i, d);
      InTimeNext(job, e, i, elapsed, laps, a.took);
      AtMostLastNext(job, i, elapsed, laps, a.took);
      if a.Raised? && job.movesOn(a.error) {
        LastFrom(job, e, i + 1, elapsed + a.took, if i + 1 < |job.chain| then from + [job.chain[i].id] else from,
          failures + [FailureOf(job.chain[i], a.error)], laps + [Lap(d, a.took)]);
      }
    }
  }

  /** If every attempt overruns its deadline by at most e, the whole chain takes at most the budget plus
      e; and with a least time that is not negative, no attempt but the last one overran at all. */
  lemma BudgetHolds(job: Job, e: real)
    requires job.budget.Some? && e >= 0.0 && Bounded(job, e)
    ensures Total(Route(job).laps) <= Limit(job) + e
    ensures job.least >= 0.0 ==> Limit(job) == Max(0.0, job.budget.value) && OnlyLastOverran(Route(job).laps)
  {
    BudgetFrom(job, e, 0, 0.0, [], [], []);
    if job.least >= 0.0 { LastFrom(job, e, 0, 0.0, [], [], []); }
  }

  /** A model is started with less than the least remaining time only when it is the first. */
  lemma {:induction false} FirstAlwaysRuns(job: Job)
    requires job.chain != []
    ensures |Route(job).laps| >= 1
  {
    LapsGrow(job, 0, 0.0, [], [], []);
  }

  lemma {:induction false} LapsGrow(job: Job, i: nat, elapsed: real, from: seq<string>, failures: seq<Failure>,
      laps: seq<Lap>)
    requires i <= |job.chain|
    ensures |RunFrom(job, i, elapsed, from, failures, laps).laps| >=
      |laps| + if i < |job.chain| && !TooLate(job, i, elapsed) then 1 else 0
    decreases |job.chain| - i
  {
    if i < |job.chain| && !TooLate(job, i, elapsed) {
      var d := Deadline(job, elapsed);
      var a := job.attempt(i, d);
      if a.Raised? && job.movesOn(a.error) {
        LapsGrow(job, i + 1, elapsed + a.took, if i + 1 < |job.chain| then from + [job.chain[i].id] else from,
          failures + [FailureOf(job.chain[i], a.error)], laps + [Lap(d, a.took)]);
      }
    }
  }
}
