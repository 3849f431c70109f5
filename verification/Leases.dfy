/**
 Generation-fenced leases, one row per resource, as kept by the autonomous host for goals
 (src/project_supervisor/autonomous_host.py) and by the recovery service for policies
 (src/project_supervisor/node_recovery.py).

 The two repositories share one protocol and differ in one test: a recovery heartbeat is refused
 once the lease has lapsed, a goal heartbeat is not. Times are microseconds; every operation carries
 the clock value its caller read, which may be older than the moment the operation takes effect.
 */
module Leases {
  import opened Options

  datatype RowState = Owned | Released | Lost

  datatype Row = Row(owner: string, generation: nat, state: RowState, heartbeatAt: int, expiresAt: int)

  datatype Claim = Claim(resource: string, owner: string, generation: nat)

  datatype Discipline = GoalLease | RecoveryLease

  type Table = map<string, Row>

  predicate Live(t: Table, resource: string, now: int) {
    resource in t && t[resource].state == Owned && t[resource].expiresAt > now
  }

  /** The row still names this claim. */
  predicate Matches(t: Table, c: Claim) {
    && c.resource in t
    && t[c.resource].owner == c.owner
    && t[c.resource].generation == c.generation
    && t[c.resource].state == Owned
  }

  /** The fence: the row names this claim and has not lapsed. */
  predicate Honoured(t: Table, c: Claim, now: int) {
    Matches(t, c) && t[c.resource].expiresAt > now
  }

  function Generation(t: Table, resource: string): nat {
    if resource in t then t[resource].generation else 0
  }

  // The operations

  function Acquired(t: Table, resource: string, owner: string, ttl: int, now: int): Table {
    t[resource := Row(owner, Generation(t, resource) + 1, Owned, now, now + ttl)]
  }

  function TryAcquire(t: Table, resource: string, owner: string, ttl: int, now: int)
    : (Table, Option<Claim>)
  {
    if Live(t, resource, now) then (t, None)
    else
      (Acquired(t, resource, owner, ttl, now),
       Some(Claim(resource, owner, Generation(t, resource) + 1)))
  }

  predicate Beats(d: Discipline, t: Table, c: Claim, now: int) {
    Matches(t, c) && (d == RecoveryLease ==> t[c.resource].expiresAt > now)
  }

  function Heartbeat(d: Discipline, t: Table, c: Claim, ttl: int, now: int): (Table, bool) {
    if Beats(d, t, c, now)
    then (t[c.resource := t[c.resource].(heartbeatAt := now, expiresAt := now + ttl)], true)
    else (t, false)
  }

  function Release(t: Table, c: Claim, lost: bool, now: int): (Table, bool) {
    if Matches(t, c)
    then (t[c.resource := t[c.resource].(state := if lost then Lost else Released,
                                         heartbeatAt := now, expiresAt := now)], true)
    else (t, false)
  }

  // Runs of many owners

  datatype Op =
    | Acquire(resource: string, owner: string, ttl: int, now: int)
    | Beat(claim: Claim, ttl: int, now: int)
    | Assert(claim: Claim, now: int)
    | Free(claim: Claim, lost: bool, now: int)

  function Apply(d: Discipline, t: Table, op: Op): Table {
    match op
    case Acquire(resource, owner, ttl, now) => TryAcquire(t, resource, owner, ttl, now).0
    case Beat(claim, ttl, now) => Heartbeat(d, t, claim, ttl, now).0
    case Assert(_, _) => t
    case Free(claim, lost, now) => Release(t, claim, lost, now).0
  }

  /** The table after the first n operations. */
  function TableAt(d: Discipline, t: Table, ops: seq<Op>, n: nat): Table
    requires n <= |ops|
  {
    if n == 0 then t else Apply(d, TableAt(d, t, ops, n - 1), ops[n - 1])
  }

  /** The claim that operation op issues in table t, if any. */
  function Issues(t: Table, op: Op): Option<Claim> {
    if op.Acquire? then TryAcquire(t, op.resource, op.owner, op.ttl, op.now).1 else None
  }

  /** Operation op is made by claim c and takes effect. */
  predicate Succeeds(d: Discipline, t: Table, c: Claim, op: Op) {
    match op
    case Acquire(_, _, _, _) => false
    case Beat(claim, _, now) => claim == c && Beats(d, t, c, now)
    case Assert(claim, now) => claim == c && Honoured(t, c, now)
    case Free(claim, _, _) => claim == c && Matches(t, c)
  }

  lemma OpRaisesGeneration(d: Discipline, t: Table, op: Op, resource: string)
    ensures Generation(Apply(d, t, op), resource)
         == Generation(t, resource)
          + (if op.Acquire? && op.resource == resource && !Live(t, resource, op.now) then 1 else 0)
  {
  }

  lemma {:induction false} GenerationsGrow(d: Discipline, t: Table, ops: seq<Op>, i: nat, n: nat, resource: string)
    requires i <= n <= |ops|
    ensures Generation(TableAt(d, t, ops, i), resource) <= Generation(TableAt(d, t, ops, n), resource)
    decreases n
  {
    if i < n {
      GenerationsGrow(d, t, ops, i, n - 1, resource);
      OpRaisesGeneration(d, TableAt(d, t, ops, n - 1), ops[n - 1], resource);
    }
  }

  /** Operation i of the run issues claim c. */
  predicate IssuedAt(d: Discipline, t: Table, ops: seq<Op>, i: nat, c: Claim) {
    i < |ops| && Issues(TableAt(d, t, ops, i), ops[i]) == Some(c)
  }

  /** How many of the first n operations issued a claim for the resource. */
  function AcquireCount(d: Discipline, t: Table, ops: seq<Op>, n: nat, resource: string): nat
    requires n <= |ops|
  {
    if n == 0 then 0
    else
      AcquireCount(d, t, ops, n - 1, resource)
      + (if Issues(TableAt(d, t, ops, n - 1), ops[n - 1]).Some? && ops[n - 1].resource == resource then 1 else 0)
  }

  /** Each successful acquire raises the generation by one, and nothing else touches it. */
  lemma {:induction false} GenerationCountsAcquires(d: Discipline, t: Table, ops: seq<Op>, n: nat, resource: string)
    requires n <= |ops|
    ensures Generation(TableAt(d, t, ops, n), resource)
         == Generation(t, resource) + AcquireCount(d, t, ops, n, resource)
  {
    if n > 0 {
      GenerationCountsAcquires(d, t, ops, n - 1, resource);
      OpRaisesGeneration(d, TableAt(d, t, ops, n - 1), ops[n - 1], resource);
    }
  }

  lemma IssuedGeneration(d: Discipline, t: Table, op: Op, c: Claim)
    requires Issues(t, op) == Some(c)
    ensures c.generation == Generation(t, c.resource) + 1 == Generation(Apply(d, t, op), c.resource)
  {
  }

  lemma StaleNeverSucceeds(d: Discipline, t: Table, c: Claim, op: Op)
    requires c.generation < Generation(t, c.resource)
    ensures !Succeeds(d, t, c, op)
  {
  }

  /** Fencing over whole runs: if operation i issued claim c and operation j, later, issued its
      successor, then no operation k after j succeeds for c, whatever clocks anyone reads. */
  lemma SuccessorFences(d: Discipline, t: Table, ops: seq<Op>, i: nat, j: nat, k: nat, c: Claim, e: Claim)
    requires i < j < k < |ops|
    requires IssuedAt(d, t, ops, i, c) && IssuedAt(d, t, ops, j, e) && e.resource == c.resource
    ensures c.generation < e.generation
    ensures !Succeeds(d, TableAt(d, t, ops, k), c, ops[k])
  {
    IssuedGeneration(d, TableAt(d, t, ops, i), ops[i], c);
    GenerationsGrow(d, t, ops, i + 1, j, c.resource);
    IssuedGeneration(d, TableAt(d, t, ops, j), ops[j], e);
    GenerationsGrow(d, t, ops, j + 1, k, c.resource);
    StaleNeverSucceeds(d, TableAt(d, t, ops, k), c, ops[k]);
  }

  /** At any point of a run at most one of the claims issued so far for a resource is honoured, and
      it is the last one issued. */
  lemma OnlyTheLastClaimIsHonoured(
      d: Discipline, t: Table, ops: seq<Op>, i: nat, j: nat, n: nat, c: Claim, e: Claim, now: int)
    requires i < j < n <= |ops|
    requires IssuedAt(d, t, ops, i, c) && IssuedAt(d, t, ops, j, e) && e.resource == c.resource
    ensures !Honoured(TableAt(d, t, ops, n), c, now)
  {
    IssuedGeneration(d, TableAt(d, t, ops, i), ops[i], c);
    GenerationsGrow(d, t, ops, i + 1, j, c.resource);
    IssuedGeneration(d, TableAt(d, t, ops, j), ops[j], e);
    GenerationsGrow(d, t, ops, j + 1, n, c.resource);
  }

  // Lapsing

  /** When every later operation reads the clock no earlier than the lapse, a lapsed recovery claim
      is never honoured again. */
  lemma {:induction false} LapsedStaysLapsed(t: Table, ops: seq<Op>, n: nat, c: Claim, lapse: int, now: int)
    requires n <= |ops| && lapse <= now
    requires c.generation <= Generation(t, c.resource) && !Honoured(t, c, lapse)
    requires forall k :: 0 <= k < |ops| ==> lapse <= ops[k].now
    ensures c.generation <= Generation(TableAt(RecoveryLease, t, ops, n), c.resource)
    ensures !Honoured(TableAt(RecoveryLease, t, ops, n), c, lapse)
    ensures !Honoured(TableAt(RecoveryLease, t, ops, n), c, now)
    decreases n
  {
    if n > 0 {
      LapsedStaysLapsed(t, ops, n - 1, c, lapse, now);
      OpRaisesGeneration(RecoveryLease, TableAt(RecoveryLease, t, ops, n - 1), ops[n - 1], c.resource);
    }
  }

  /** A heartbeat revives a lapsed claim exactly when the row still names it and, for recovery
      leases, the caller had read the clock before the lapse. */
  lemma RevivalExactly(d: Discipline, t: Table, c: Claim, ttl: int, read: int, now: int)
    requires !Honoured(t, c, now) && read <= now < read + ttl
    ensures Honoured(Heartbeat(d, t, c, ttl, read).0, c, now) <==>
      Matches(t, c) && (d == GoalLease || read < t[c.resource].expiresAt)
  {
  }

  /** Both kinds of revival happen: a goal lease renewed after it lapsed, and a recovery lease
      renewed by a caller that read the clock just before the lapse. */
  lemma LapsedClaimsCanRevive()
    ensures exists t, c, ttl, now ::
      !Honoured(t, c, now) && Honoured(Heartbeat(GoalLease, t, c, ttl, now).0, c, now)
    ensures exists t, c, ttl, read, now ::
      read <= now && !Honoured(t, c, now) && Honoured(Heartbeat(RecoveryLease, t, c, ttl, read).0, c, now)
  {
    var c := Claim("r", "o", 1);
    var t := map["r" := Row("o", 1, Owned, 0, 10)];
    assert !Honoured(t, c, 10) && Honoured(Heartbeat(GoalLease, t, c, 5, 10).0, c, 10);
    assert !Honoured(t, c, 10) && Honoured(Heartbeat(RecoveryLease, t, c, 5, 9).0, c, 10);
  }

  // The goal lease repository

  datatype GoalPhase = GoalCreated | GoalRunning | GoalElsewhere

  datatype AcquireOutcome = UnknownGoal | UnknownHost | Busy | Granted(claim: Claim, stale: bool)

  class GoalLeaseRepository {
    var goals: map<string, GoalPhase>
    var hosts: set<string>
    var leases: Table

    constructor (goals: map<string, GoalPhase>, hosts: set<string>)
      ensures this.goals == goals && this.hosts == hosts && leases == map[]
    {
      this.goals, this.hosts, leases := goals, hosts, map[];
    }

    method TryAcquireGoal(goal: string, host: string, ttl: int, now: int) returns (outcome: AcquireOutcome)
      modifies this`leases
      ensures outcome == UnknownGoal <==> goal !in goals
      ensures outcome == UnknownHost <==> goal in goals && goals[goal] != GoalElsewhere && host !in hosts
      ensures outcome.Granted? ==>
        && goals[goal] != GoalElsewhere && host in hosts
        && (leases, Some(outcome.claim)) == TryAcquire(old(leases), goal, host, ttl, now)
        && (outcome.stale <==> goal in old(leases) && old(leases)[goal].state == Owned)
      ensures !outcome.Granted? ==> leases == old(leases)
      ensures goal in goals && goals[goal] != GoalElsewhere && host in hosts ==>
        (outcome.Granted? <==> !Live(old(leases), goal, now))
    {
      if goal !in goals { return UnknownGoal; }
      if goals[goal] == GoalElsewhere { return Busy; }
      if host !in hosts { return UnknownHost; }
      var stale := goal in leases && leases[goal].state == Owned && leases[goal].expiresAt <= now;
      if goal in leases && leases[goal].state == Owned && leases[goal].expiresAt > now { return Busy; }
      var generation := if goal in leases then leases[goal].generation + 1 else 1;
      leases := leases[goal := Row(host, generation, Owned, now, now + ttl)];
      return Granted(Claim(goal, host, generation), stale);
    }

    method HeartbeatGoal(claim: Claim, ttl: int, now: int) returns (ok: bool)
      modifies this`leases
      ensures (leases, ok) == Heartbeat(GoalLease, old(leases), claim, ttl, now)
    {
      ok := claim.resource in leases && leases[claim.resource].owner == claim.owner
         && leases[claim.resource].generation == claim.generation
         && leases[claim.resource].state == Owned;
      if ok {
        leases := leases[claim.resource := leases[claim.resource].(heartbeatAt := now, expiresAt := now + ttl)];
      }
    }

    method AssertGoalLease(claim: Claim, now: int) returns (held: bool)
      ensures held <==> Honoured(leases, claim, now)
    {
      held := claim.resource in leases && leases[claim.resource].owner == claim.owner
           && leases[claim.resource].generation == claim.generation
           && leases[claim.resource].state == Owned && leases[claim.resource].expiresAt > now;
    }

    method ReleaseGoal(claim: Claim, lost: bool, now: int) returns (ok: bool)
      modifies this`leases
      ensures (leases, ok) == Release(old(leases), claim, lost, now)
    {
      ok := claim.resource in leases && leases[claim.resource].owner == claim.owner
         && leases[claim.resource].generation == claim.generation
         && leases[claim.resource].state == Owned;
      if ok {
        var state := if lost then Lost else Released;
        leases := leases[claim.resource :=
          leases[claim.resource].(state := state, heartbeatAt := now, expiresAt := now)];
      }
    }
  }
}
