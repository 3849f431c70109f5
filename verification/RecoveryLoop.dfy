/**
 The retry loop of a claimed recovery as it is written (src/project_supervisor/node_recovery.py),
 run against an arbitrary environment and shown to be a run of the small-step process.
 */
module RecoveryLoop {
  import opened Options
  import opened RecoveryProcess

  /** What the n-th interaction of a recovery is answered with, whichever kind it is. */
  datatype Environment = Environment(
    observe: nat -> Observation,
    held: nat -> bool,
    decide: nat -> Option<string>,
    renew: nat -> bool,
    recover: nat -> Answer)

  class Recovery {
    const policy: Policy
    const generation: nat
    const env: Environment
    var trace: seq<Input>

    ghost var proc: Proc

    /** The process that the loop has run so far. */
    ghost predicate Valid()
      reads this
    {
      proc == Run(Start(policy, generation), trace) && WellTimed(Start(policy, generation), trace)
    }

    constructor (policy: Policy, generation: nat, env: Environment)
      ensures this.policy == policy && this.generation == generation && this.env == env && Valid()
          && proc == Start(policy, generation)
    {
      this.policy, this.generation, this.env := policy, generation, env;
      trace, proc := [], Start(policy, generation);
    }

    method Observe() returns (o: Observation)
      requires Valid() && (proc.pc == Probing || proc.pc == Reprobing)
      modifies this
      ensures Valid() && proc == Advance(old(proc), Observed(o))
    {
      o := env.observe(|trace|);
      Extend(Start(policy, generation), trace, Observed(o));
      trace, proc := trace + [Observed(o)], Advance(proc, Observed(o));
    }

    /** A transaction, or a read, that first asserts the lease. */
    method Fenced() returns (held: bool)
      requires Valid() && AtFence(proc.pc)
      modifies this
      ensures Valid() && proc == Advance(old(proc), Fence(held))
    {
      held := env.held(|trace|);
      Extend(Start(policy, generation), trace, Fence(held));
      trace, proc := trace + [Fence(held)], Advance(proc, Fence(held));
    }

    method Authorize() returns (grant: Option<string>)
      requires Valid() && proc.pc == Authorizing
      modifies this
      ensures Valid() && proc == Advance(old(proc), Decided(grant))
    {
      grant := env.decide(|trace|);
      Extend(Start(policy, generation), trace, Decided(grant));
      trace, proc := trace + [Decided(grant)], Advance(proc, Decided(grant));
    }

    method Heartbeat() returns (renewed: bool)
      requires Valid() && (proc.pc == PreBeat || proc.pc.PostBeat?)
      modifies this
      ensures Valid() && proc == Advance(old(proc), Beat(renewed))
    {
      renewed := env.renew(|trace|);
      Extend(Start(policy, generation), trace, Beat(renewed));
      trace, proc := trace + [Beat(renewed)], Advance(proc, Beat(renewed));
    }

    method AdapterRecover() returns (answer: Answer)
      requires Valid() && proc.pc == Dispatching
      modifies this
      ensures Valid() && proc == Advance(old(proc), Reply(answer))
    {
      answer := env.recover(|trace|);
      Extend(Start(policy, generation), trace, Reply(answer));
      trace, proc := trace + [Reply(answer)], Advance(proc, Reply(answer));
    }

    /** Finishes the attempt row as failed and reports it. */
    method FailWith(o: Outcome) returns (outcome: Option<Outcome>)
      requires Valid() && proc.pc == Failing(o)
      modifies this
      ensures Valid() && Reports(proc, outcome)
      ensures proc.policy == old(proc.policy) && proc.generation == old(proc.generation)
    {
      var held := Fenced();
      if !held { return None; }
      held := Fenced();
      if !held { return None; }
      return Some(o);
    }

    /** From the observation to the degraded attempt row; done means that the recovery is over. */
    method Open() returns (done: bool, outcome: Option<Outcome>, before: Observation)
      requires Valid() && policy.maxAttempts >= 1 && proc == Start(policy, generation)
      modifies this
      ensures Valid() && proc.policy == policy && proc.generation == generation
      ensures done ==> Reports(proc, outcome)
      ensures !done ==>
        && outcome.None?
        && proc == Start(policy, generation).(pc := Authorizing, attempt := 1, before := before)
    {
      before := Observe();
      assert proc == Start(policy, generation).(pc := CheckOwned, before := before);
      var held := Fenced();
      if !held { return true, None, before; }
      if ReadyFor(before, policy) {
        assert proc == Start(policy, generation).(pc := CreateHealthy, before := before);
        outcome := ReportHealthy(before);
        return true, outcome, before;
      }
      assert proc == Start(policy, generation).(pc := CreateDegraded, before := before);
      held := Fenced();
      if !held { return true, None, before; }
      assert proc == Start(policy, generation).(pc := MarkDegraded, before := before);
      held := Fenced();
      if !held { return true, None, before; }
      if !policy.enabled {
        outcome := FailWith(Outcome(PermissionRequired, 0, None, before, None, Some(PolicyDisabled)));
        return true, outcome, before;
      }
      return false, None, before;
    }

    /** A healthy runtime is recorded in a finished attempt row and one event. */
    method ReportHealthy(before: Observation) returns (outcome: Option<Outcome>)
      requires Valid() && proc.pc == CreateHealthy && proc.before == before
      modifies this
      ensures Valid() && Reports(proc, outcome)
      ensures proc.policy == old(proc.policy) && proc.generation == old(proc.generation)
    {
      var held := Fenced();
      if !held { return None; }
      held := Fenced();
      if !held { return None; }
      return Some(Outcome(ObservedHealthy, 0, None, before, None, None));
    }

    /** Authorization, the attempt row, two events and the heartbeat that must precede a call. */
    method Clear(
        attempt: nat, before: Observation) returns (clear: bool, outcome: Option<Outcome>, grant: Option<string>)
      requires Valid() && attempt >= 1
      requires proc.pc == Authorizing && proc.attempt == attempt && proc.before == before
      modifies this
      ensures Valid() && (!clear ==> Reports(proc, outcome))
      ensures clear ==> grant.Some? && proc == old(proc).(pc := Dispatching, authorization := grant)
    {
      grant := Authorize();
      if grant.None? {
        outcome := FailWith(
          Outcome(PermissionRequired, attempt - 1, None, before, None, Some(AuthorizationDenied)));
        return false, outcome, None;
      }
      assert proc == old(proc).(pc := MarkRecovering, authorization := grant);
      var held := Fenced();
      if !held { return false, None, None; }
      assert proc == old(proc).(pc := AuthorizedEvent, authorization := grant);
      held := Fenced();
      if !held { return false, None, None; }
      assert proc == old(proc).(pc := StartedEvent, authorization := grant);
      held := Fenced();
      if !held { return false, None, None; }
      var renewed := Heartbeat();
      if !renewed { return false, None, None; }
      return true, None, grant;
    }

    /** The READY path: finish the row, mark the node, journal the event. */
    method Conclude(o: Outcome) returns (outcome: Option<Outcome>)
      requires Valid() && proc.pc == FinishReady
      requires o == Outcome(ReadyNow, proc.attempt, proc.authorization, proc.before, proc.after, None)
      modifies this
      ensures Valid() && Reports(proc, outcome)
    {
      var held := Fenced();
      if !held { return None; }
      held := Fenced();
      if !held { return None; }
      held := Fenced();
      if !held { return None; }
      return Some(o);
    }

    /** What follows an adapter call that returned: the second heartbeat, the fencing check, and for
        an accepted start the verification. again means that the loop goes on. */
    method Settle(attempt: nat, before: Observation, grant: Option<string>, answer: Answer)
      returns (again: bool, outcome: Option<Outcome>)
      requires Valid() && answer != Raised
      requires At(PostBeat(answer), attempt, before) && proc.authorization == grant
      modifies this
      ensures Valid() && (if again then At(Authorizing, attempt + 1, before) && attempt < policy.maxAttempts
                          else Reports(proc, outcome))
    {
      var renewed := Heartbeat();
      if !renewed { return false, None; }
      if answer.Accepted? && answer.generation != generation {
        outcome := FailWith(Outcome(FailedNow, attempt, grant, before, None, Some(FencingMismatch)));
        return false, outcome;
      }
      if !answer.Accepted? {
        if attempt == policy.maxAttempts {
          outcome := FailWith(Outcome(FailedNow, attempt, grant, before, None, Some(StartRejected)));
          return false, outcome;
        }
        return true, None;
      }
      assert At(MarkVerifying, attempt, before) && proc.authorization == grant;
      again, outcome := Verify(attempt, before, grant);
    }

    method Verify(attempt: nat, before: Observation, grant: Option<string>)
      returns (again: bool, outcome: Option<Outcome>)
      requires Valid() && At(MarkVerifying, attempt, before) && proc.authorization == grant
      modifies this
      ensures Valid() && (if again then At(Authorizing, attempt + 1, before) && attempt < policy.maxAttempts
                          else Reports(proc, outcome))
    {
      var held := Fenced();
      if !held { return false, None; }
      assert At(Reprobing, attempt, before) && proc.authorization == grant;
      var after := Observe();
      assert At(CheckAfter, attempt, before) && proc.authorization == grant && proc.after == Some(after);
      held := Fenced();
      if !held { return false, None; }
      if ReadyFor(after, policy) {
        outcome := Conclude(Outcome(ReadyNow, attempt, grant, before, Some(after), None));
        return false, outcome;
      }
      if attempt == policy.maxAttempts {
        outcome := FailWith(Outcome(FailedNow, attempt, grant, before, Some(after), Some(VerificationFailed)));
        return false, outcome;
      }
      return true, None;
    }

    ghost predicate At(pc: Pc, attempt: nat, before: Observation)
      reads this
    {
      && proc.policy == policy && proc.generation == generation
      && proc.pc == pc && proc.attempt == attempt && proc.before == before
      && 1 <= attempt <= policy.maxAttempts
    }

    /** The whole recovery. None means that the lease was lost and the call raised. */
    method RecoverClaimed() returns (outcome: Option<Outcome>)
      requires Valid() && policy.maxAttempts >= 1 && proc == Start(policy, generation)
      modifies this
      ensures Valid() && Reports(proc, outcome)
    {
      var done, early, before := Open();
      if done { return early; }
      for attempt := 1 to policy.maxAttempts + 1
        invariant Valid() && attempt <= policy.maxAttempts
        invariant At(Authorizing, attempt, before)
      {
        var clear, stopped, grant := Clear(attempt, before);
        if !clear { return stopped; }
        assert At(Dispatching, attempt, before) && proc.authorization == grant;
        var answer := AdapterRecover();
        if answer == Raised {
          if attempt == policy.maxAttempts {
            outcome := FailWith(Outcome(FailedNow, attempt, grant, before, None, Some(AdapterFailed)));
            return;
          }
        } else {
          var again, result := Settle(attempt, before, grant, answer);
          if !again { return result; }
        }
      }
    }

    /** The same, with what the outcome says about the adapter calls actually made. */
    method Recover() returns (outcome: Option<Outcome>)
      requires Valid() && policy.maxAttempts >= 1 && proc == Start(policy, generation)
      modifies this
      ensures Valid() && Reports(proc, outcome)
      ensures Read(trace).calls <= policy.maxAttempts
      ensures outcome.Some? ==>
        && outcome.value.attemptCount == Read(trace).calls
        && (outcome.value.state == ReadyNow ==>
              && Read(trace).lastAnswer == Some(Accepted(generation))
              && outcome.value.after == Read(trace).lastSeen
              && outcome.value.after.Some? && ReadyFor(outcome.value.after.value, policy))
    {
      outcome := RecoverClaimed();
      TraceInvAlways(policy, generation, trace);
    }
  }

  /** What a caller of the recovery sees: the returned outcome, or the raised loss of the lease. */
  predicate Reports(p: Proc, outcome: Option<Outcome>) {
    if outcome.Some? then p.pc == Returned(outcome.value) else p.pc == LeaseLost
  }
}
