/** Which policies are safe: the fence and the one-effect theorem hold of a policy exactly under their
    conditions, and each missing condition has a run that breaks them. */
module LeasePolicy {
  import opened Options
  import opened LeaseRows
  import opened LeaseSystem
  import opened LeaseFence
  import opened LeaseRetry
  import opened LeaseWitness

  // ---------------------------------------------------------------- comparing policies

  predicate ScansWithin(p: SplitScans, q: SplitScans) { p == Never || q == Anytime || p == q }

  /** `q` allows whatever `p` allows. */
  predicate Within(p: Policy, q: Policy) {
    ScansWithin(p.splitScans, q.splitScans) && (q.automaticOnly ==> p.automaticOnly) &&
      (q.keepsSettled ==> p.keepsSettled)
  }

  lemma StepWithin(p: Policy, q: Policy, s: State, a: Action)
    requires Within(p, q) && Next(p, s, a).Some?
    ensures Next(q, s, a) == Next(p, s, a)
  {
  }

  /** A run of a stricter policy is a run of the laxer one, to the same state. */
  lemma {:induction false} RunWithin(p: Policy, q: Policy, s: State, trace: seq<Action>)
    requires Within(p, q) && Run(p, s, trace).Some?
    ensures Run(q, s, trace) == Run(p, s, trace)
  {
    if trace != [] {
      var init, last := trace[..|trace| - 1], trace[|trace| - 1];
      RunWithin(p, q, s, init);
      StepWithin(p, q, Run(p, s, init).value, last);
    }
  }

  // ---------------------------------------------------------------- one effect for each message

  /** An attempt that ended with a decisive effect, or behind which a request reached the venue. */
  predicate TookEffect(s: State, i: nat) {
    i < |s.db.attempts| && (Decisive(s.db.attempts[i]) || i in s.wrote)
  }

  /** Two effects on one message. */
  ghost predicate SameMessage(s: State, i: nat, j: nat) {
    TookEffect(s, i) && TookEffect(s, j) && s.db.attempts[i].message == s.db.attempts[j].message
  }

  ghost predicate OneEffectEach(s: State) {
    forall i: nat, j: nat | SameMessage(s, i, j) :: i == j
  }

  /** No run of the policy lets two generations of one message take effect. */
  ghost predicate LeavesOneEffect(p: Policy) {
    forall trace | Run(p, EMPTY, trace).Some? :: OneEffectEach(Run(p, EMPTY, trace).value)
  }

  /** No split scanner while the owner lives, no manual call, no overwritten decision. */
  predicate Guarded(p: Policy) { p.splitScans != Anytime && p.automaticOnly && p.keepsSettled }

  lemma GuardedLeavesOneEffect(p: Policy)
    requires Guarded(p)
    ensures LeavesOneEffect(p)
  {
    forall trace | Run(p, EMPTY, trace).Some? ensures OneEffectEach(Run(p, EMPTY, trace).value) {
      RunWithin(p, AUTOMATIC, EMPTY, trace);
      var s := Run(p, EMPTY, trace).value;
      forall i: nat, j: nat | SameMessage(s, i, j) ensures i == j { AtMostOneGenerationTakesEffect(trace, i, j); }
    }
  }

  /** A run of a stricter policy in which two attempts of one message were written breaks the laxer one. */
  lemma TwoWritesBreak(p: Policy, q: Policy, trace: seq<Action>)
    requires Within(p, q) && Run(p, EMPTY, trace).Some?
    requires var s := Run(p, EMPTY, trace).value;
      {0, 1} <= s.wrote && |s.db.attempts| == 2 && s.db.attempts[0].message == s.db.attempts[1].message
    ensures !LeavesOneEffect(q)
  {
    RunWithin(p, q, EMPTY, trace);
    var s := Run(q, EMPTY, trace).value;
    assert SameMessage(s, 0, 1);
  }

  /** At most one generation of a message takes effect in every run exactly when split scanners wait for the
      owner to go, retries pass the gate, and nobody overwrites the decision of a succeeded attempt. */
  lemma PolicyIsSafeIff(p: Policy)
    ensures LeavesOneEffect(p) <==> Guarded(p)
  {
    if Guarded(p) {
      GuardedLeavesOneEffect(p);
    } else if p.splitScans == Anytime {
      var trace := ScannerBeforeOwnerGoneWritesTwice();
      TwoWritesBreak(ROGUE_SCANNER, p, trace);
    } else if !p.automaticOnly {
      var trace := ManualCallWritesTwice();
      TwoWritesBreak(MANUAL_RETRY, p, trace);
    } else {
      var trace := OverwrittenDecisionWritesTwice();
      TwoWritesBreak(OVERWRITER, p, trace);
    }
  }

  // ---------------------------------------------------------------- the fence

  /** Every row behind which a request reached the venue has a start time and denies no write. */
  ghost predicate WritesShow(s: State) {
    forall i | i in s.wrote ::
      && i < |s.db.attempts| && s.db.attempts[i].startedAt.Some?
      && s.db.attempts[i].status !in {Claimed, FailedSafe, ClosedNoWrite} && s.db.attempts[i].effect != Some(NotStarted)
  }

  ghost predicate Fences(p: Policy) {
    forall trace | Run(p, EMPTY, trace).Some? :: WritesShow(Run(p, EMPTY, trace).value)
  }

  /** The rows show every write, in every run, exactly when no split scanner reads while the owner lives:
      manual calls and overwritten decisions do not matter, nor when a one-step scanner comes. */
  lemma FenceIff(p: Policy)
    ensures Fences(p) <==> Careful(p)
  {
    if Careful(p) {
      forall trace | Run(p, EMPTY, trace).Some? ensures WritesShow(Run(p, EMPTY, trace).value) {
        forall i | i in Run(p, EMPTY, trace).value.wrote
          ensures var s := Run(p, EMPTY, trace).value;
            && i < |s.db.attempts| && s.db.attempts[i].startedAt.Some?
            && s.db.attempts[i].status !in {Claimed, FailedSafe, ClosedNoWrite}
            && s.db.attempts[i].effect != Some(NotStarted)
        {
          WrittenRowsTellTheTruth(p, trace, i);
        }
      }
    } else {
      var trace := ScannerBeforeOwnerGoneWritesTwice();
      RunWithin(ROGUE_SCANNER, p, EMPTY, trace);
      assert 0 in Run(p, EMPTY, trace).value.wrote;
    }
  }
}
