/** The persistence module of the lease as a mutable object: each method is one
    database transaction and is proved against its function in LeaseRows. */
module AttemptStore {
  import opened Options
  import opened LeaseRows

  /** What a call gives back: the compare-and-set result, or a ValueError raised before any read. */
  datatype CallResult = Changed | Unchanged | Invalid

  class ExecutionStore {
    var decisions: map<nat, Decision>
    var attempts: seq<Attempt>

    ghost function View(): Db
      reads this
    {
      Db(decisions, attempts)
    }

    constructor ()
      ensures View() == Db(map[], [])
    {
      decisions, attempts := map[], [];
    }

    /** `UPDATE recognition_decisions ... WHERE raw_message_id, execution_running, token`. */
    method CasRunning(m: nat, g: nat, value: Decision) returns (won: bool)
      modifies this`decisions
      ensures won == old(Running(View(), m, g))
      ensures won <==> m in old(decisions) && old(decisions)[m].status == ExecutionRunning &&
                       old(decisions)[m].token == Some(g)
      ensures decisions == if won then old(decisions)[m := value] else old(decisions)
    {
      won := m in decisions && decisions[m].status == ExecutionRunning && decisions[m].token == Some(g);
      if won {
        decisions := decisions[m := value];
      }
    }

    method ClaimAttempt(m: nat, g: nat, role: Role, token: nat, now: int, expiry: int) returns (r: ClaimResult)
      modifies this
      ensures r == old(ClaimOutcome(View(), m, g, role, token, now, expiry))
      ensures View() == old(Claim(View(), m, g, role, token, now, expiry))
      ensures r == RoleRefused <==> role == Ingest || role == Web
      ensures r == LeaseInvalid <==> (role == Worker || role == All) && expiry <= now
      ensures r == StaleGeneration || r == DuplicateRow || r.Granted? <==>
                (role == Worker || role == All) && now < expiry
      ensures r == DuplicateRow || r.Granted? <==>
                && (role == Worker || role == All) && now < expiry
                && m in old(decisions) && old(decisions)[m].status == ExecutionPending
                && old(decisions)[m].token == Some(g)
      ensures r.Granted? ==> forall a | a in old(attempts) ::
                a.token != token && (a.message != m || a.generation != g)
      ensures r == DuplicateRow ==> exists a | a in old(attempts) ::
                a.token == token || (a.message == m && a.generation == g)
      ensures r.Granted? ==>
                && r.id == |old(attempts)|
                && attempts == old(attempts) + [Attempt(m, g, token, Claimed, None, None, Automation(None, None),
                                                  None, false, expiry, None)]
                && decisions == old(decisions)[m := old(decisions)[m].(status := ExecutionRunning)]
      ensures !r.Granted? ==> View() == old(View())
    {
      if role != Worker && role != All {
        return RoleRefused;
      }
      if expiry <= now {
        return LeaseInvalid;
      }
      var before := decisions;
      if !(m in decisions && decisions[m].status == ExecutionPending && decisions[m].token == Some(g)) {
        return StaleGeneration;
      }
      decisions := decisions[m := decisions[m].(status := ExecutionRunning)];
      var i := 0;
      while i < |attempts|
        invariant 0 <= i <= |attempts|
        invariant forall k | 0 <= k < i ::
          attempts[k].token != token && !(attempts[k].message == m && attempts[k].generation == g)
      {
        if attempts[i].token == token || (attempts[i].message == m && attempts[i].generation == g) {
          decisions := before;          // the insert violates a unique constraint: roll back
          return DuplicateRow;
        }
        i := i + 1;
      }
      attempts := attempts + [NewAttempt(m, g, token, expiry)];
      r := Granted(|attempts| - 1);
    }

    method HeartbeatAttempt(id: nat, token: nat, now: int, expiry: int) returns (r: CallResult)
      modifies this`attempts
      ensures r == if expiry <= now then Invalid
                   else if old(CanHeartbeat(View(), id, token)) then Changed else Unchanged
      ensures View() == if expiry <= now then old(View()) else old(Heartbeat(View(), id, token, expiry))
      ensures r == Changed <==>
                && now < expiry && id < |old(attempts)| && old(attempts)[id].token == token
                && old(attempts)[id].status in {Claimed, Executing, OutcomeRecorded}
      ensures attempts == if r == Changed then old(attempts)[id := old(attempts)[id].(leaseExpiresAt := expiry)]
                          else old(attempts)
    {
      if expiry <= now {
        return Invalid;
      }
      if id < |attempts| && attempts[id].token == token && Active(attempts[id].status) {
        attempts := attempts[id := attempts[id].(leaseExpiresAt := expiry)];
        return Changed;
      }
      r := Unchanged;
    }

    method MarkSideEffectStarted(id: nat, m: nat, g: nat, token: nat, now: int) returns (won: bool)
      modifies this`attempts
      ensures won == old(CanStart(View(), id, m, g, token))
      ensures View() == old(Start(View(), id, m, g, token, now))
      ensures won <==>
                && id < |old(attempts)| && old(attempts)[id].token == token
                && old(attempts)[id].message == m && old(attempts)[id].generation == g
                && old(attempts)[id].status == Claimed && old(attempts)[id].startedAt == None
      ensures attempts ==
              if won then old(attempts)[id := old(attempts)[id].(status := Executing, startedAt := Some(now))]
              else old(attempts)
    {
      won := id < |attempts| && attempts[id].token == token && attempts[id].message == m
        && attempts[id].generation == g && attempts[id].status == Claimed && attempts[id].startedAt == None;
      if won {
        attempts := attempts[id := attempts[id].(status := Executing, startedAt := Some(now))];
      }
    }

    method RecordOutcome(id: nat, token: nat, status: string, reason: Option<string>, effect: Effect,
                         evidence: seq<EvidenceRef>) returns (r: CallResult)
      modifies this`attempts
      ensures r == if effect == OutcomeUnknown then Invalid
                   else if old(CanRecord(View(), id, token, effect)) then Changed else Unchanged
      ensures View() == old(Record(View(), id, token, status, reason, effect, evidence))
      ensures r == Changed <==>
                && effect != OutcomeUnknown && id < |old(attempts)| && old(attempts)[id].token == token
                && if effect == NotStarted then old(attempts)[id].status in {Claimed, Executing}
                   else old(attempts)[id].status == Executing && old(attempts)[id].startedAt.Some?
      ensures attempts ==
              if r != Changed then old(attempts)
              else old(attempts)[id := old(attempts)[id].(
                status := OutcomeRecorded, effect := Some(effect), evidence := Some(evidence),
                automation := Automation(Some(if status == "" then "unknown" else status), reason))]
    {
      if effect == OutcomeUnknown {
        return Invalid;
      }
      r := Unchanged;
      if id < |attempts| && attempts[id].token == token {
        var row := attempts[id];
        var allowed := row.status == Executing || (effect == NotStarted && row.status == Claimed);
        if allowed && (effect == NotStarted || row.startedAt.Some?) {
          attempts := attempts[id := row.(
            status := OutcomeRecorded, effect := Some(effect),
            automation := Automation(Some(StatusOr(status, "unknown")), reason),
            evidence := Some(evidence))];
          r := Changed;
        }
      }
    }

    method RecordDeterministicRefusal(id: nat, token: nat, status: string, reason: Option<string>,
                                      refs: seq<EvidenceRef>, now: int) returns (r: CallResult)
      modifies this
      ensures r == if refs == [] then Invalid
                   else if old(CanClose(View(), id, token, Refuse(status, reason, refs))) then Changed else Unchanged
      ensures View() == old(Close(View(), id, token, Refuse(status, reason, refs), now))
      ensures r == Changed <==>
                && refs != [] && id < |old(attempts)| && old(attempts)[id].token == token
                && old(attempts)[id].status == Executing
                && Running(old(View()), old(attempts)[id].message, old(attempts)[id].generation)
      ensures r == Changed ==>
                && attempts == old(attempts)[id := old(attempts)[id].(
                     status := FailedSafe, effect := Some(NotStarted), evidence := Some(refs),
                     automation := Automation(Some(if status == "" then "failed" else status), reason),
                     completedAt := Some(now))]
                && decisions == old(decisions)[old(attempts)[id].message :=
                     Decision(Completed, None, ReviewDisabled, Automation(Some("failed"), reason))]
      ensures r != Changed ==> View() == old(View())
    {
      if refs == [] {
        return Invalid;
      }
      if id >= |attempts| || attempts[id].token != token || attempts[id].status != Executing {
        return Unchanged;
      }
      var row := attempts[id];
      var won := CasRunning(row.message, row.generation,
        Decision(Completed, None, ReviewDisabled, Automation(Some("failed"), reason)));
      if !won {
        return Unchanged;
      }
      attempts := attempts[id := row.(
        status := FailedSafe, effect := Some(NotStarted),
        automation := Automation(Some(StatusOr(status, "failed")), reason),
        evidence := Some(refs), completedAt := Some(now))];
      r := Changed;
    }

    method FailSafeAttempt(id: nat, token: nat, now: int) returns (won: bool)
      modifies this
      ensures won == old(CanClose(View(), id, token, FailSafe))
      ensures View() == old(Close(View(), id, token, FailSafe, now))
      ensures won <==>
                && id < |old(attempts)| && old(attempts)[id].token == token
                && old(attempts)[id].status == Claimed && old(attempts)[id].startedAt == None
                && Running(old(View()), old(attempts)[id].message, old(attempts)[id].generation)
      ensures won ==>
                && attempts == old(attempts)[id := old(attempts)[id].(
                     status := FailedSafe, completedAt := Some(now))]
                && decisions == old(decisions)[old(attempts)[id].message :=
                     Decision(Completed, None, ReviewDisabled,
                       Automation(Some("failed"), Some("authoritative_execution_abandoned_before_side_effect")))]
      ensures !won ==> View() == old(View())
    {
      if id >= |attempts| || attempts[id].token != token || attempts[id].status != Claimed
         || attempts[id].startedAt.Some? {
        return false;
      }
      var row := attempts[id];
      won := CasRunning(row.message, row.generation,
        Decision(Completed, None, ReviewDisabled,
                 Automation(Some("failed"), Some("authoritative_execution_abandoned_before_side_effect"))));
      if won {
        attempts := attempts[id := row.(status := FailedSafe, completedAt := Some(now))];
      }
    }

    method RecordPreflightRefusal(id: nat, token: nat, code: string, refs: seq<EvidenceRef>, now: int)
      returns (r: CallResult)
      modifies this
      ensures r == if refs == [] then Invalid
                   else if old(CanClose(View(), id, token, Preflight(code, refs))) then Changed else Unchanged
      ensures View() == old(Close(View(), id, token, Preflight(code, refs), now))
      ensures r == Changed <==>
                && refs != [] && id < |old(attempts)| && old(attempts)[id].token == token
                && old(attempts)[id].status == Executing
                && Running(old(View()), old(attempts)[id].message, old(attempts)[id].generation)
      ensures r == Changed ==>
                && attempts == old(attempts)[id := old(attempts)[id].(
                     status := ClosedNoWrite, effect := Some(NotStarted), evidence := Some(refs),
                     automation := Automation(Some("failed"), Some(code)), completedAt := Some(now))]
                && decisions == old(decisions)[old(attempts)[id].message :=
                     Decision(Completed, None, ReviewDisabled, Automation(Some("failed"), Some(code)))]
      ensures r != Changed ==> View() == old(View())
    {
      if refs == [] {
        return Invalid;
      }
      if id >= |attempts| || attempts[id].token != token || attempts[id].status != Executing {
        return Unchanged;
      }
      var row := attempts[id];
      var won := CasRunning(row.message, row.generation,
        Decision(Completed, None, ReviewDisabled, Automation(Some("failed"), Some(code))));
      if !won {
        return Unchanged;
      }
      attempts := attempts[id := row.(
        status := ClosedNoWrite, effect := Some(NotStarted),
        automation := Automation(Some("failed"), Some(code)),
        evidence := Some(refs), completedAt := Some(now))];
      r := Changed;
    }

    method MarkUncertain(id: nat, token: nat, refs: seq<EvidenceRef>, now: int) returns (won: bool)
      modifies this
      ensures won == old(CanClose(View(), id, token, Freeze(refs)))
      ensures View() == old(Close(View(), id, token, Freeze(refs), now))
      ensures won <==>
                && id < |old(attempts)| && old(attempts)[id].token == token
                && old(attempts)[id].status == Executing && old(attempts)[id].startedAt.Some?
                && Running(old(View()), old(attempts)[id].message, old(attempts)[id].generation)
      ensures won ==>
                && attempts == old(attempts)[id := old(attempts)[id].(
                     status := Uncertain, effect := Some(OutcomeUnknown), evidence := Some(refs),
                     noWriteNoted := ExchangeWrite !in refs, completedAt := Some(now))]
                && decisions == old(decisions)[old(attempts)[id].message :=
                     old(decisions)[old(attempts)[id].message].(status := ExecutionUncertain,
                       automation := Automation(Some("uncertain"), Some("authoritative_execution_outcome_unknown")))]
      ensures !won ==> View() == old(View())
    {
      if id >= |attempts| || attempts[id].token != token || attempts[id].status != Executing
         || attempts[id].startedAt == None {
        return false;
      }
      var row := attempts[id];
      if row.message in decisions {
        won := CasRunning(row.message, row.generation, decisions[row.message].(
          status := ExecutionUncertain,
          automation := Automation(Some("uncertain"), Some("authoritative_execution_outcome_unknown"))));
      } else {
        won := false;
      }
      if won {
        attempts := attempts[id := row.(
          status := Uncertain, effect := Some(OutcomeUnknown), evidence := Some(refs),
          noWriteNoted := ExchangeWrite !in refs, completedAt := Some(now))];
      }
    }

    /** `None` is the RuntimeError: not finalizeable, or the generation is stale. */
    method FinalizeRecorded(id: nat, token: nat, now: int) returns (decision: Option<Decision>)
      modifies this
      ensures decision.Some? == old(CanClose(View(), id, token, Finalize))
      ensures View() == old(Close(View(), id, token, Finalize, now))
      ensures decision.Some? <==>
                && id < |old(attempts)| && old(attempts)[id].token == token
                && old(attempts)[id].status == OutcomeRecorded
                && Running(old(View()), old(attempts)[id].message, old(attempts)[id].generation)
      ensures decision.Some? ==>
                && attempts == old(attempts)[id := old(attempts)[id].(status := Succeeded, completedAt := Some(now))]
                && decisions == old(decisions)[old(attempts)[id].message :=
                     Decision(Completed, None, ReviewDisabled, old(attempts)[id].automation)]
      ensures decision == None ==> View() == old(View())
      ensures decision.Some? ==> attempts[id].message in decisions && decision.value == decisions[attempts[id].message]
    {
      if id >= |attempts| || attempts[id].token != token || attempts[id].status != OutcomeRecorded {
        return None;
      }
      var row := attempts[id];
      var released := Decision(Completed, None, ReviewDisabled, row.automation);
      var won := CasRunning(row.message, row.generation, released);
      if !won {
        return None;
      }
      attempts := attempts[id := row.(status := Succeeded, completedAt := Some(now))];
      decision := Some(released);
    }

    /** One scanner visit to an attempt row found active: `seen` is the row of the page query. */
    method ScannerVisit(id: nat, seen: Attempt, alive: Option<bool>, now: int) returns (closed: bool)
      modifies this
      // it is one of the closers the lease theorems speak of
      ensures closed ==>
                && ScannerCloser(seen, alive, now).Some?
                && View() == old(Close(View(), id, seen.token, ScannerCloser(seen, alive, now).value, now))
      // only the attempt of an owner that is gone, under a lease that has run out, is ever closed
      ensures closed ==> alive == Some(false) && seen.leaseExpiresAt <= now && seen.status != Uncertain
      // and it is closed exactly when the stored row still carries the token and stands where the
      // closer for the status seen needs it, under a generation that runs
      ensures closed <==>
                && alive == Some(false) && seen.leaseExpiresAt <= now && seen.status != Uncertain
                && id < |old(attempts)| && old(attempts)[id].token == seen.token
                && Running(old(View()), old(attempts)[id].message, old(attempts)[id].generation)
                && (if seen.status == OutcomeRecorded then old(attempts)[id].status == OutcomeRecorded
                    else if seen.status == Claimed then
                      old(attempts)[id].status == Claimed && old(attempts)[id].startedAt == None
                    else old(attempts)[id].status == Executing && old(attempts)[id].startedAt.Some?)
      ensures closed && seen.status == Claimed ==>
                && attempts == old(attempts)[id := old(attempts)[id].(
                     status := FailedSafe, completedAt := Some(now))]
                && decisions == old(decisions)[old(attempts)[id].message :=
                     Decision(Completed, None, ReviewDisabled,
                       Automation(Some("failed"), Some("authoritative_execution_abandoned_before_side_effect")))]
      ensures closed && seen.status == OutcomeRecorded ==>
                && attempts == old(attempts)[id := old(attempts)[id].(status := Succeeded, completedAt := Some(now))]
                && decisions == old(decisions)[old(attempts)[id].message :=
                     Decision(Completed, None, ReviewDisabled, old(attempts)[id].automation)]
      ensures closed && seen.status != Claimed && seen.status != OutcomeRecorded ==>
                && attempts == old(attempts)[id := old(attempts)[id].(
                     status := Uncertain, effect := Some(OutcomeUnknown), evidence := Some([]),
                     noWriteNoted := true, completedAt := Some(now))]
                && decisions == old(decisions)[old(attempts)[id].message :=
                     old(decisions)[old(attempts)[id].message].(status := ExecutionUncertain,
                       automation := Automation(Some("uncertain"), Some("authoritative_execution_outcome_unknown")))]
      ensures !closed ==> View() == old(View())
    {
      closed := false;
      var expired := seen.leaseExpiresAt <= now;
      if seen.status == OutcomeRecorded {
        if expired && alive == Some(false) {
          var finalized := FinalizeRecorded(id, seen.token, now);
          closed := finalized.Some?;
        }
      } else if seen.status == Uncertain {
      } else if expired && alive == Some(false) {
        if seen.status == Claimed {
          closed := FailSafeAttempt(id, seen.token, now);
        } else {
          closed := MarkUncertain(id, seen.token, [], now);
        }
      }
    }
  }

  /** The closer the scanner picks: only for an expired lease whose owner is proved dead. */
  function ScannerCloser(seen: Attempt, alive: Option<bool>, now: int): Option<Closer> {
    if seen.status == Uncertain || seen.leaseExpiresAt > now || alive != Some(false) then None
    else if seen.status == OutcomeRecorded then Some(Finalize)
    else if seen.status == Claimed then Some(FailSafe)
    else Some(Freeze([]))
  }
}
