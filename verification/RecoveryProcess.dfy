/**
 One recovery of one runtime (src/project_supervisor/node_recovery.py): the bounded retry loop of a
 claimed recovery, as a small-step process over its inputs and as the loop itself.

 Every interaction with the outside is an input: probe observations, capability decisions, adapter
 replies, and the answer of each lease test. The number of adapter.recover calls of a trace is the
 number of its replies.
 */
module RecoveryProcess {
  import opened Options

  datatype Observation = Observation(reachable: bool, runtimeReady: bool, models: Option<set<string>>)

  datatype Policy = Policy(
    id: string, enabled: bool, maxAttempts: nat, expectedModels: set<string>, ttl: int, maxOperation: int)

  const SECOND := 1_000_000

  /** The limits checked when a policy is built and when an adapter is bound to it. */
  predicate ValidPolicy(p: Policy) {
    && 1 <= p.maxAttempts <= 3
    && 15 * SECOND <= p.ttl <= 300 * SECOND
    && 0 < p.maxOperation <= p.ttl - 10 * SECOND
  }

  predicate ReadyFor(o: Observation, p: Policy) {
    && o.reachable && o.runtimeReady
    && (p.expectedModels == {} || (o.models.Some? && p.expectedModels <= o.models.value))
  }

  datatype AttemptState =
    | ObservedHealthy | Degraded | PermissionRequired | Recovering | Verifying | ReadyNow | FailedNow

  datatype Failure =
    | PolicyDisabled | AuthorizationDenied | AdapterFailed | FencingMismatch | StartRejected
    | VerificationFailed | StaleLeaseRecovered | OrphanedAttemptRecovered

  datatype Answer = Raised | Rejected | Accepted(generation: nat)

  datatype Outcome = Outcome(
    state: AttemptState, attemptCount: nat, authorization: Option<string>,
    before: Observation, after: Option<Observation>, failure: Option<Failure>)

  datatype Input =
    | Observed(observation: Observation)
    | Fence(held: bool)
    | Decided(grant: Option<string>)
    | Beat(renewed: bool)
    | Reply(answer: Answer)

  datatype Pc =
    | Probing | CheckOwned
    | CreateHealthy | HealthyEvent
    | CreateDegraded | MarkDegraded
    | Authorizing | MarkRecovering | AuthorizedEvent | StartedEvent
    | PreBeat | Dispatching | PostBeat(answer: Answer)
    | MarkVerifying | Reprobing | CheckAfter
    | FinishReady | MarkReady | ReadyEvent
    | Failing(outcome: Outcome) | FailedEvent(outcome: Outcome)
    | Returned(outcome: Outcome) | LeaseLost

  datatype Proc = Proc(
    policy: Policy, generation: nat, pc: Pc, attempt: nat,
    before: Observation, after: Option<Observation>, authorization: Option<string>)

  const UNSEEN := Observation(false, false, None)

  function Start(policy: Policy, generation: nat): Proc {
    Proc(policy, generation, Probing, 0, UNSEEN, None, None)
  }

  function Fail(p: Proc, state: AttemptState, count: nat, authorization: Option<string>,
                after: Option<Observation>, failure: Failure): Proc
  {
    p.(pc := Failing(Outcome(state, count, authorization, p.before, after, Some(failure))))
  }

  /** The next iteration of the retry loop, or the failure that ends its last one. */
  function RetryOr(p: Proc, after: Option<Observation>, failure: Failure): Proc {
    if p.attempt < p.policy.maxAttempts then p.(pc := Authorizing, attempt := p.attempt + 1)
    else Fail(p, FailedNow, p.attempt, p.authorization, after, failure)
  }

  /** Where the process goes when the lease test at this point succeeds. */
  function AfterFence(p: Proc): Proc {
    match p.pc
    case CheckOwned => p.(pc := if ReadyFor(p.before, p.policy) then CreateHealthy else CreateDegraded)
    case CreateHealthy => p.(pc := HealthyEvent)
    case HealthyEvent => p.(pc := Returned(Outcome(ObservedHealthy, 0, None, p.before, None, None)))
    case CreateDegraded => p.(pc := MarkDegraded)
    case MarkDegraded =>
      if p.policy.enabled then p.(pc := Authorizing, attempt := 1)
      else Fail(p, PermissionRequired, 0, None, None, PolicyDisabled)
    case MarkRecovering => p.(pc := AuthorizedEvent)
    case AuthorizedEvent => p.(pc := StartedEvent)
    case StartedEvent => p.(pc := PreBeat)
    case MarkVerifying => p.(pc := Reprobing)
    case CheckAfter =>
      if p.after.Some? && ReadyFor(p.after.value, p.policy) then p.(pc := FinishReady)
      else RetryOr(p, p.after, VerificationFailed)
    case FinishReady => p.(pc := MarkReady)
    case MarkReady => p.(pc := ReadyEvent)
    case ReadyEvent =>
      p.(pc := Returned(Outcome(ReadyNow, p.attempt, p.authorization, p.before, p.after, None)))
    case Failing(outcome) => p.(pc := FailedEvent(outcome))
    case FailedEvent(outcome) => p.(pc := Returned(outcome))
    case _ => p
  }

  predicate AtFence(pc: Pc) {
    || pc.CheckOwned? || pc.CreateHealthy? || pc.HealthyEvent? || pc.CreateDegraded? || pc.MarkDegraded?
    || pc.MarkRecovering? || pc.AuthorizedEvent? || pc.StartedEvent? || pc.MarkVerifying? || pc.CheckAfter?
    || pc.FinishReady? || pc.MarkReady? || pc.ReadyEvent? || pc.Failing? || pc.FailedEvent?
  }

  /** One step. An input that does not belong to the current point leaves the process alone. */
  function Advance(p: Proc, input: Input): Proc {
    match input
    case Observed(o) =>
      if p.pc == Probing then p.(pc := CheckOwned, before := o)
      else if p.pc == Reprobing then p.(pc := CheckAfter, after := Some(o))
      else p
    case Fence(held) =>
      if !AtFence(p.pc) then p else if held then AfterFence(p) else p.(pc := LeaseLost)
    case Decided(grant) =>
      if p.pc != Authorizing then p
      else if grant.Some? then p.(pc := MarkRecovering, authorization := grant)
      else Fail(p, PermissionRequired, if p.attempt == 0 then 0 else p.attempt - 1, None, None, AuthorizationDenied)
    case Beat(renewed) =>
      if p.pc == PreBeat then p.(pc := if renewed then Dispatching else LeaseLost)
      else if p.pc.PostBeat? then
        if !renewed then p.(pc := LeaseLost)
        else
          match p.pc.answer
          case Accepted(generation) =>
            if generation != p.generation
            then Fail(p, FailedNow, p.attempt, p.authorization, None, FencingMismatch)
            else p.(pc := MarkVerifying)
          case _ => RetryOr(p, None, StartRejected)
      else p
    case Reply(answer) =>
      if p.pc != Dispatching then p
      else if answer == Raised then RetryOr(p, None, AdapterFailed)
      else p.(pc := PostBeat(answer))
  }

  /** The input kind that the process awaits at this point. */
  predicate Fits(pc: Pc, input: Input) {
    match input
    case Observed(_) => (pc.Probing? || pc.Reprobing?)
    case Fence(_) => AtFence(pc)
    case Decided(_) => pc == Authorizing
    case Beat(_) => pc == PreBeat || pc.PostBeat?
    case Reply(_) => pc == Dispatching
  }

  function Run(start: Proc, trace: seq<Input>): Proc {
    if trace == [] then start
    else Advance(Run(start, trace[..|trace| - 1]), trace[|trace| - 1])
  }

  /** Every input of the trace was awaited when it came. */
  predicate WellTimed(start: Proc, trace: seq<Input>) {
    trace == [] ||
    (WellTimed(start, trace[..|trace| - 1]) && Fits(Run(start, trace[..|trace| - 1]).pc, trace[|trace| - 1]))
  }

  lemma Extend(start: Proc, trace: seq<Input>, input: Input)
    ensures Run(start, trace + [input]) == Advance(Run(start, trace), input)
    ensures WellTimed(start, trace + [input]) <==> WellTimed(start, trace) && Fits(Run(start, trace).pc, input)
  {
    assert (trace + [input])[..|trace|] == trace;
  }

  // Reading a trace

  datatype Clearance = NoGrant | Granted | Renewed

  /** calls: the number of adapter.recover calls; clearance: what has been obtained since the last
      call, first a grant and then a successful heartbeat. */
  datatype Summary = Summary(
    calls: nat, lastAnswer: Option<Answer>, lastSeen: Option<Observation>, clearance: Clearance)

  function Note(m: Summary, input: Input): Summary {
    match input
    case Observed(o) => m.(lastSeen := Some(o))
    case Fence(_) => m
    case Decided(grant) => m.(clearance := if grant.Some? then Granted else NoGrant)
    case Beat(renewed) => m.(clearance := if m.clearance == Granted && renewed then Renewed else m.clearance)
    case Reply(answer) => m.(calls := m.calls + 1, lastAnswer := Some(answer), clearance := NoGrant)
  }

  function Read(trace: seq<Input>): Summary {
    if trace == [] then Summary(0, None, None, NoGrant)
    else Note(Read(trace[..|trace| - 1]), trace[|trace| - 1])
  }

  // What every trace keeps

  predicate BeforeLoop(pc: Pc) {
    (pc.Probing? || pc.CheckOwned? || pc.CreateHealthy? || pc.HealthyEvent? || pc.CreateDegraded? || pc.MarkDegraded?)
  }

  predicate BeforeCall(pc: Pc) {
    (pc.Authorizing? || pc.MarkRecovering? || pc.AuthorizedEvent? || pc.StartedEvent? || pc.PreBeat? || pc.Dispatching?)
  }

  predicate AfterCall(pc: Pc) {
    pc.PostBeat? || (pc.MarkVerifying? || pc.Reprobing? || pc.CheckAfter? || pc.FinishReady? || pc.MarkReady?
        || pc.ReadyEvent?)
  }

  predicate Cleared(pc: Pc) {
    (pc.MarkRecovering? || pc.AuthorizedEvent? || pc.StartedEvent? || pc.PreBeat?)
  }

  predicate Acknowledged(pc: Pc) {
    (pc.MarkVerifying? || pc.Reprobing? || pc.CheckAfter? || pc.FinishReady? || pc.MarkReady? || pc.ReadyEvent?)
  }

  predicate OutcomeFits(p: Proc, m: Summary, o: Outcome) {
    && o.attemptCount == m.calls <= p.policy.maxAttempts
    && (o.state == ReadyNow ==>
          && m.lastAnswer == Some(Accepted(p.generation))
          && m.lastSeen.Some? && ReadyFor(m.lastSeen.value, p.policy)
          && o.after == m.lastSeen)
    && (o.state == ObservedHealthy ==>
          m.calls == 0 && m.lastSeen.Some? && ReadyFor(m.lastSeen.value, p.policy))
  }

  predicate Denied(o: Outcome) {
    o.failure.Some? && (o.state == PermissionRequired || o.state == FailedNow)
  }

  /** Relates the point reached to what the trace contains. */
  predicate TraceInv(p: Proc, m: Summary) {
    && m.calls <= p.policy.maxAttempts
    && (BeforeLoop(p.pc) ==> m.calls == 0)
    && (BeforeCall(p.pc) ==> 1 <= p.attempt <= p.policy.maxAttempts && m.calls == p.attempt - 1)
    && (AfterCall(p.pc) ==> 1 <= p.attempt <= p.policy.maxAttempts && m.calls == p.attempt)
    && (Cleared(p.pc) ==> m.clearance == Granted)
    && (p.pc == Dispatching ==> m.clearance == Renewed)
    && (p.pc.PostBeat? ==> m.lastAnswer == Some(p.pc.answer))
    && (Acknowledged(p.pc) ==> m.lastAnswer == Some(Accepted(p.generation)))
    && ((p.pc.CheckOwned? || p.pc.CreateHealthy? || p.pc.HealthyEvent?) ==> m.lastSeen == Some(p.before))
    && ((p.pc.CreateHealthy? || p.pc.HealthyEvent?) ==> ReadyFor(p.before, p.policy))
    && ((p.pc.CheckAfter? || p.pc.FinishReady? || p.pc.MarkReady? || p.pc.ReadyEvent?) ==>
          p.after.Some? && m.lastSeen == p.after)
    && ((p.pc.FinishReady? || p.pc.MarkReady? || p.pc.ReadyEvent?) ==>
        p.after.Some? && ReadyFor(p.after.value, p.policy))
    && (p.pc.Failing? || p.pc.FailedEvent? || p.pc.Returned? ==> OutcomeFits(p, m, p.pc.outcome))
    && (p.pc.Failing? || p.pc.FailedEvent? ==> Denied(p.pc.outcome))
  }

  lemma EarlyFenceKeepsTraceInv(p: Proc, m: Summary)
    requires TraceInv(p, m) && p.policy.maxAttempts >= 1 && (BeforeLoop(p.pc) || BeforeCall(p.pc))
    ensures TraceInv(AfterFence(p), m)
  {
  }

  lemma LateFenceKeepsTraceInv(p: Proc, m: Summary)
    requires TraceInv(p, m) && p.policy.maxAttempts >= 1 && AfterCall(p.pc)
    ensures TraceInv(AfterFence(p), m)
  {
  }

  lemma FenceKeepsTraceInv(p: Proc, m: Summary)
    requires TraceInv(p, m) && p.policy.maxAttempts >= 1 && AtFence(p.pc)
    ensures TraceInv(AfterFence(p), m)
  {
    if BeforeLoop(p.pc) || BeforeCall(p.pc) {
      EarlyFenceKeepsTraceInv(p, m);
    } else if AfterCall(p.pc) {
      LateFenceKeepsTraceInv(p, m);
    }
  }

  lemma AdvanceKeepsTraceInv(p: Proc, m: Summary, input: Input)
    requires TraceInv(p, m) && p.policy.maxAttempts >= 1 && Fits(p.pc, input)
    ensures TraceInv(Advance(p, input), Note(m, input))
  {
    if input.Fence? {
      FenceKeepsTraceInv(p, m);
    }
  }

  lemma {:induction false} TraceInvAlways(policy: Policy, generation: nat, trace: seq<Input>)
    requires policy.maxAttempts >= 1 && WellTimed(Start(policy, generation), trace)
    ensures var p := Run(Start(policy, generation), trace);
      TraceInv(p, Read(trace)) && p.policy == policy && p.generation == generation
    decreases |trace|
  {
    if trace != [] {
      var n := |trace| - 1;
      TraceInvAlways(policy, generation, trace[..n]);
      AdvanceKeepsTraceInv(Run(Start(policy, generation), trace[..n]), Read(trace[..n]), trace[n]);
    }
  }

  /** Whatever probes, authorizers, adapters and other owners do: a returned outcome counts the
      adapter calls exactly and within the policy's bound; READY means that the last call was
      acknowledged under the current generation and the last observation meets the policy. */
  lemma ReturnedOutcomes(policy: Policy, generation: nat, trace: seq<Input>)
    requires policy.maxAttempts >= 1 && WellTimed(Start(policy, generation), trace)
    requires Run(Start(policy, generation), trace).pc.Returned?
    ensures var o, m := Run(Start(policy, generation), trace).pc.outcome, Read(trace);
      && o.attemptCount == m.calls <= policy.maxAttempts
      && (o.state == ReadyNow ==>
            && m.lastAnswer == Some(Accepted(generation))
            && o.after == m.lastSeen && o.after.Some? && ReadyFor(o.after.value, policy))
      && (o.state == ObservedHealthy ==> m.calls == 0)
  {
    TraceInvAlways(policy, generation, trace);
  }

  lemma CallsAwaitClearance(start: Proc, trace: seq<Input>, k: nat)
    requires k < |trace| && WellTimed(start, trace) && trace[k].Reply?
    ensures WellTimed(start, trace[..k]) && Run(start, trace[..k]).pc == Dispatching
  {
    WellTimedPrefix(start, trace, k + 1);
    assert trace[..k + 1][..k] == trace[..k];
  }

  /** Each adapter call is preceded, after the previous call, by a granted authorization and then a
      successful heartbeat. */
  lemma CallsAreCleared(policy: Policy, generation: nat, trace: seq<Input>, k: nat)
    requires policy.maxAttempts >= 1 && WellTimed(Start(policy, generation), trace)
    requires k < |trace| && trace[k].Reply?
    ensures Read(trace[..k]).clearance == Renewed
  {
    CallsAwaitClearance(Start(policy, generation), trace, k);
    TraceInvAlways(policy, generation, trace[..k]);
  }

  lemma {:induction false} WellTimedPrefix(start: Proc, trace: seq<Input>, n: nat)
    requires n <= |trace| && WellTimed(start, trace)
    ensures WellTimed(start, trace[..n])
    decreases |trace|
  {
    if n == |trace| {
      assert trace[..n] == trace;
    } else {
      WellTimedPrefix(start, trace[..|trace| - 1], n);
      assert trace[..|trace| - 1][..n] == trace[..n];
    }
  }
}
