/**
 The lease and attempt tables of the recovery service as its transactions update them in place
 (src/project_supervisor/node_recovery.py). Each method is one transaction, and its new tables are
 those of the corresponding step of RecoveryProtocol.
 */
module RecoveryStore {
  import opened Options
  import opened RecoveryProcess
  import opened RecoveryProtocol
  import L = Leases

  datatype AcquireOutcome = BadTtl | UnknownPolicy | Busy | Acquired(claim: L.Claim, stale: bool)

  const MIN_TTL := 15 * SECOND
  const MAX_TTL := 300 * SECOND

  predicate HasOpenAttempt(attempts: Attempts, policy: string) {
    exists id :: id in attempts && attempts[id].policy == policy && !attempts[id].finished
  }

  /** Closing the open attempts of a policy that has none changes nothing. */
  lemma NothingToClose(attempts: Attempts, policy: string, stale: bool)
    requires !HasOpenAttempt(attempts, policy)
    ensures Closed(attempts, policy, stale) == attempts
  {
    assert forall id :: id in attempts ==> Closed(attempts, policy, stale)[id] == attempts[id];
  }

  /** The other fenced transactions only journal an event or mark a node. */
  lemma NothingWritten(attempts: Attempts, id: string, p: Proc)
    requires !Writes(p.pc)
    ensures Written(attempts, id, p) == attempts
  {
    assert id in attempts ==> attempts[id := attempts[id]] == attempts;
  }

  class Tables {
    var policies: set<string>
    var leases: L.Table
    var attempts: Attempts

    constructor (policies: set<string>)
      ensures this.policies == policies && leases == map[] && attempts == map[]
    {
      this.policies, leases, attempts := policies, map[], map[];
    }

    /** try_acquire: refused while the lease is live; otherwise the next generation, with whatever
        attempt an earlier owner left open closed in the same transaction. */
    method TryAcquire(policy: string, owner: string, ttl: int, now: int) returns (outcome: AcquireOutcome)
      modifies this`leases, this`attempts
      ensures outcome == BadTtl <==> !(MIN_TTL <= ttl <= MAX_TTL)
      ensures outcome == UnknownPolicy <==> MIN_TTL <= ttl <= MAX_TTL && policy !in policies
      ensures outcome == Busy <==> MIN_TTL <= ttl <= MAX_TTL && policy in policies && L.Live(old(leases), policy, now)
      ensures outcome.Acquired? ==>
        && (leases, Some(outcome.claim)) == L.TryAcquire(old(leases), policy, owner, ttl, now)
        && (outcome.stale <==> policy in old(leases) && old(leases)[policy].state == L.Owned)
        && attempts == Closed(old(attempts), policy, outcome.stale)
        && !HasOpenAttempt(attempts, policy)
      ensures !outcome.Acquired? ==> leases == old(leases) && attempts == old(attempts)
    {
      if !(MIN_TTL <= ttl <= MAX_TTL) { return BadTtl; }
      if policy !in policies { return UnknownPolicy; }
      var stale := policy in leases && leases[policy].state == L.Owned && leases[policy].expiresAt <= now;
      if policy in leases && leases[policy].state == L.Owned && leases[policy].expiresAt > now { return Busy; }
      var unfinished := exists id :: id in attempts && attempts[id].policy == policy && !attempts[id].finished;
      var generation := if policy in leases then leases[policy].generation + 1 else 1;
      leases := leases[policy := L.Row(owner, generation, L.Owned, now, now + ttl)];
      if stale || unfinished {
        attempts := map id | id in attempts ::
          if attempts[id].policy == policy && !attempts[id].finished
          then attempts[id].(state := FailedNow, finished := true,
                             failure := Some(if stale then StaleLeaseRecovered else OrphanedAttemptRecovered))
          else attempts[id];
      } else {
        NothingToClose(attempts, policy, stale);
      }
      return Acquired(L.Claim(policy, owner, generation), stale);
    }

    method Heartbeat(claim: L.Claim, ttl: int, now: int) returns (ok: bool)
      modifies this`leases
      ensures (leases, ok) == L.Heartbeat(L.RecoveryLease, old(leases), claim, ttl, now)
    {
      ok := AssertOwned(claim, now);
      if ok {
        leases := leases[claim.resource := leases[claim.resource].(heartbeatAt := now, expiresAt := now + ttl)];
      }
    }

    method AssertOwned(claim: L.Claim, now: int) returns (held: bool)
      ensures held <==> L.Honoured(leases, claim, now)
    {
      held := claim.resource in leases && leases[claim.resource].owner == claim.owner
           && leases[claim.resource].generation == claim.generation
           && leases[claim.resource].state == L.Owned && leases[claim.resource].expiresAt > now;
    }

    method Release(claim: L.Claim, lost: bool, now: int) returns (ok: bool)
      modifies this`leases
      ensures (leases, ok) == L.Release(old(leases), claim, lost, now)
    {
      ok := claim.resource in leases && leases[claim.resource].owner == claim.owner
         && leases[claim.resource].generation == claim.generation && leases[claim.resource].state == L.Owned;
      if ok {
        leases := leases[claim.resource :=
          leases[claim.resource].(state := if lost then L.Lost else L.Released, heartbeatAt := now, expiresAt := now)];
      }
    }

    /** _create_attempt, whose id is fresh. */
    method CreateAttempt(
        id: string, policy: string, claim: L.Claim, state: AttemptState, finished: bool, now: int)
        returns (held: bool)
      requires id !in attempts
      modifies this`attempts
      ensures held <==> L.Honoured(leases, claim, now)
      ensures attempts ==
        if held then old(attempts)[id := Attempt(policy, claim.generation, state, 0, None, None, None, finished)]
        else old(attempts)
    {
      held := AssertOwned(claim, now);
      if held {
        attempts := attempts[id := Attempt(policy, claim.generation, state, 0, None, None, None, finished)];
      }
    }

    /** _update_attempt: an UPDATE by id, which does nothing if there is no such row. */
    method UpdateAttempt(id: string, claim: L.Claim, state: AttemptState, count: nat, authorization: Option<string>,
                         after: Option<Observation>, failure: Option<Failure>, finished: bool, now: int)
        returns (held: bool)
      modifies this`attempts
      ensures held <==> L.Honoured(leases, claim, now)
      ensures attempts ==
        if held && id in old(attempts)
        then old(attempts)[id := Updated(old(attempts)[id], state, count, authorization, after, failure, finished)]
        else old(attempts)
    {
      held := AssertOwned(claim, now);
      if held && id in attempts {
        var row := attempts[id].(state := state, count := count, failure := failure, finished := finished);
        if authorization.Some? { row := row.(authorization := authorization); }
        if after.Some? { row := row.(after := after); }
        attempts := attempts[id := row];
      }
    }

    /** The transaction that a recovery runs at one of its fenced points: it is what RecoveryProtocol
        writes there, and nothing if the lease is lost. */
    method Transact(id: string, claim: L.Claim, p: Proc, now: int) returns (held: bool)
      requires AtFence(p.pc) && p.generation == claim.generation
      requires p.pc.CreateHealthy? || p.pc.CreateDegraded? ==> id !in attempts
      modifies this`attempts
      ensures held <==> L.Honoured(leases, claim, now)
      ensures attempts == if held then Written(old(attempts), id, p) else old(attempts)
    {
      if !Writes(p.pc) {
        NothingWritten(attempts, id, p);
        held := AssertOwned(claim, now);
      } else if p.pc.CreateHealthy? {
        held := CreateAttempt(id, p.policy.id, claim, ObservedHealthy, true, now);
      } else if p.pc.CreateDegraded? {
        held := CreateAttempt(id, p.policy.id, claim, Degraded, false, now);
      } else if p.pc.MarkRecovering? {
        held := UpdateAttempt(id, claim, Recovering, p.attempt, p.authorization, None, None, false, now);
      } else if p.pc.MarkVerifying? {
        held := UpdateAttempt(id, claim, Verifying, p.attempt, p.authorization, None, None, false, now);
      } else if p.pc.FinishReady? {
        held := UpdateAttempt(id, claim, ReadyNow, p.attempt, p.authorization, p.after, None, true, now);
      } else {
        var o := p.pc.outcome;
        held := UpdateAttempt(id, claim, o.state, o.attemptCount, o.authorization, o.after, o.failure, true, now);
      }
    }
  }
}
