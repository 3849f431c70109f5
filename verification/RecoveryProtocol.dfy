/**
 Many recoveries of many policies, interleaved (src/project_supervisor/node_recovery.py).

 Owners acquire the lease of a policy, run the recovery process and write attempt rows in
 transactions fenced by the lease; they may stall, crash, be overtaken and keep running. Every
 transaction is one atomic step. The clock never goes back; heartbeats, acquires and releases use a
 clock value read earlier.
 */
module RecoveryProtocol {
  import opened Options
  import opened RecoveryProcess
  import L = Leases

  datatype Attempt = Attempt(
    policy: string, generation: nat, state: AttemptState, count: nat,
    authorization: Option<string>, after: Option<Observation>, failure: Option<Failure>, finished: bool)

  type Attempts = map<string, Attempt>

  predicate Refused(state: AttemptState) { state.FailedNow? || state.PermissionRequired? }

  /** The CHECK constraints of the attempts table. */
  predicate WellFormed(a: Attempt) {
    && (a.finished <==> a.state.ObservedHealthy? || a.state.ReadyNow? || Refused(a.state))
    && (a.failure.Some? <==> Refused(a.state))
  }

  // Writes to the attempts table

  function Kept<T>(given: Option<T>, stored: Option<T>): Option<T> {
    if given.Some? then given else stored
  }

  /** An UPDATE: absent values keep what is stored, finished_at is overwritten either way. */
  function Updated(a: Attempt, state: AttemptState, count: nat, authorization: Option<string>,
                   after: Option<Observation>, failure: Option<Failure>, finished: bool): Attempt
  {
    a.(state := state, count := count, authorization := Kept(authorization, a.authorization),
       after := Kept(after, a.after), failure := failure, finished := finished)
  }

  /** An attempt left open is closed by the next owner of its policy. */
  function ClosedRow(a: Attempt, stale: bool): Attempt {
    if a.finished then a
    else a.(state := FailedNow, finished := true,
            failure := Some(if stale then StaleLeaseRecovered else OrphanedAttemptRecovered))
  }

  function Closed(attempts: Attempts, policy: string, stale: bool): (r: Attempts)
    ensures r.Keys == attempts.Keys
  {
    map id | id in attempts ::
      if attempts[id].policy == policy then ClosedRow(attempts[id], stale) else attempts[id]
  }

  /** The row after the fenced transaction at the process's current point. An UPDATE of a missing
      row does nothing. */
  function WrittenRow(row: Option<Attempt>, p: Proc): Option<Attempt> {
    match p.pc
    case CreateHealthy =>
      Some(Attempt(p.policy.id, p.generation, ObservedHealthy, 0, None, None, None, true))
    case CreateDegraded =>
      Some(Attempt(p.policy.id, p.generation, Degraded, 0, None, None, None, false))
    case _ =>
      if row.None? then None
      else
        var a := row.value;
        match p.pc
        case MarkRecovering => Some(Updated(a, Recovering, p.attempt, p.authorization, None, None, false))
        case MarkVerifying => Some(Updated(a, Verifying, p.attempt, p.authorization, None, None, false))
        case FinishReady => Some(Updated(a, ReadyNow, p.attempt, p.authorization, p.after, None, true))
        case Failing(o) =>
          Some(Updated(a, o.state, o.attemptCount, o.authorization, o.after, o.failure, true))
        case _ => row
  }

  function Lookup(attempts: Attempts, id: string): Option<Attempt> {
    if id in attempts then Some(attempts[id]) else None
  }

  function Written(attempts: Attempts, id: string, p: Proc): Attempts {
    var row := WrittenRow(Lookup(attempts, id), p);
    if row.Some? then attempts[id := row.value] else attempts
  }

  // The system

  datatype Session = Session(claim: L.Claim, proc: Proc, trace: seq<Input>, running: bool)

  datatype Sys = Sys(clock: int, leases: L.Table, attempts: Attempts, sessions: map<string, Session>)

  datatype Step =
    | Tick(micros: nat)
    | Begin(id: string, policy: Policy, owner: string, read: int)
    | Tell(id: string, input: Input)
    | Transact(id: string)
    | Renew(id: string, read: int)
    | Halt(id: string)
    | GiveUp(id: string, lost: bool, read: int)

  function Moved(n: Session, input: Input): Session {
    n.(proc := Advance(n.proc, input), trace := n.trace + [input])
  }

  predicate Finished(n: Session) {
    !n.running || n.proc.pc.Returned? || n.proc.pc.LeaseLost?
  }

  function Begun(s: Sys, id: string, policy: Policy, owner: string, read: int): Sys {
    var (leases, claim) := L.TryAcquire(s.leases, policy.id, owner, policy.ttl, read);
    if claim.None? then s
    else
      var stale := policy.id in s.leases && s.leases[policy.id].state == L.Owned;
      Sys(s.clock, leases, Closed(s.attempts, policy.id, stale),
          s.sessions[id := Session(claim.value, Start(policy, claim.value.generation), [], true)])
  }

  function Transacted(s: Sys, id: string): Sys
    requires id in s.sessions
  {
    var n := s.sessions[id];
    var held := L.Honoured(s.leases, n.claim, s.clock);
    s.(attempts := if held then Written(s.attempts, id, n.proc) else s.attempts,
       sessions := s.sessions[id := Moved(n, Fence(held))])
  }

  function Renewed(s: Sys, id: string, read: int): Sys
    requires id in s.sessions
  {
    var n := s.sessions[id];
    var (leases, ok) := L.Heartbeat(L.RecoveryLease, s.leases, n.claim, n.proc.policy.ttl, read);
    s.(leases := leases, sessions := s.sessions[id := Moved(n, Beat(ok))])
  }

  /** One atomic step; a step that is not possible changes nothing. */
  function Next(s: Sys, step: Step): Sys {
    match step
    case Tick(micros) => s.(clock := s.clock + micros)
    case Begin(id, policy, owner, read) =>
      if id in s.sessions || read > s.clock || !ValidPolicy(policy) then s
      else Begun(s, id, policy, owner, read)
    case Tell(id, input) =>
      if id in s.sessions && s.sessions[id].running && Fits(s.sessions[id].proc.pc, input)
         && !input.Fence? && !input.Beat?
      then s.(sessions := s.sessions[id := Moved(s.sessions[id], input)])
      else s
    case Transact(id) =>
      if id in s.sessions && s.sessions[id].running && AtFence(s.sessions[id].proc.pc)
      then Transacted(s, id) else s
    case Renew(id, read) =>
      if id in s.sessions && s.sessions[id].running && read <= s.clock
         && (s.sessions[id].proc.pc.PreBeat? || s.sessions[id].proc.pc.PostBeat?)
      then Renewed(s, id, read) else s
    case Halt(id) =>
      if id in s.sessions then s.(sessions := s.sessions[id := s.sessions[id].(running := false)]) else s
    case GiveUp(id, lost, read) =>
      if id in s.sessions && read <= s.clock && Finished(s.sessions[id])
      then s.(leases := L.Release(s.leases, s.sessions[id].claim, lost, read).0)
      else s
  }

  function After(s: Sys, steps: seq<Step>, n: nat): Sys
    requires n <= |steps|
  {
    if n == 0 then s else Next(After(s, steps, n - 1), steps[n - 1])
  }

  function Fresh(clock: int): Sys { Sys(clock, map[], map[], map[]) }

  // The invariant

  predicate Uncreated(pc: Pc) {
    pc.Probing? || pc.CheckOwned? || pc.CreateHealthy? || pc.CreateDegraded?
  }

  /** Points from which the process will still write to its attempt row. */
  predicate InFlight(pc: Pc) {
    || pc.MarkDegraded? || BeforeCall(pc) || pc.PostBeat? || pc.MarkVerifying? || pc.Reprobing?
    || pc.CheckAfter? || pc.FinishReady? || pc.Failing?
  }

  /** The row already counts the call that is about to be made. */
  predicate Counted(pc: Pc) {
    pc.AuthorizedEvent? || pc.StartedEvent? || pc.PreBeat? || pc.Dispatching? || AfterCall(pc)
  }

  predicate RowFits(claim: L.Claim, p: Proc, m: Summary, a: Attempt, current: nat) {
    && a.policy == claim.resource && a.generation == claim.generation
    && WellFormed(a)
    && m.calls <= a.count <= m.calls + 1
    && (Counted(p.pc) ==> a.count == p.attempt)
    && (!a.finished ==> a.generation == current)
    && (a.finished && InFlight(p.pc) ==> a.generation < current)
  }

  /** A process with its claim, the summary of its trace, its attempt row and the current generation
      of its policy. */
  predicate Fit(claim: L.Claim, p: Proc, m: Summary, row: Option<Attempt>, current: nat) {
    && claim.resource == p.policy.id
    && claim.generation == p.generation
    && 1 <= claim.generation <= current
    && 1 <= p.policy.maxAttempts
    && TraceInv(p, m)
    && (Uncreated(p.pc) ==> row.None?)
    && (InFlight(p.pc) ==> row.Some?)
    && (row.None? ==> m.calls == 0)
    && (row.Some? ==> RowFits(claim, p, m, row.value, current))
  }

  predicate FitSession(n: Session, row: Option<Attempt>, current: nat) {
    Fit(n.claim, n.proc, Read(n.trace), row, current)
  }

  ghost predicate SessionFits(s: Sys, id: string)
    requires id in s.sessions
  {
    FitSession(s.sessions[id], Lookup(s.attempts, id), L.Generation(s.leases, s.sessions[id].claim.resource))
  }

  ghost predicate Apart(s: Sys, id: string, other: string)
    requires id in s.sessions && other in s.sessions
  {
    s.sessions[id].claim.resource == s.sessions[other].claim.resource ==>
      s.sessions[id].claim.generation != s.sessions[other].claim.generation
  }

  ghost predicate SysInv(s: Sys) {
    && (forall id :: id in s.sessions ==> SessionFits(s, id))
    && (forall id, other :: id in s.sessions && other in s.sessions && id != other ==> Apart(s, id, other))
    && (forall id :: id in s.attempts ==> id in s.sessions)
  }

  // One session at a time

  lemma ReadExtended(trace: seq<Input>, input: Input)
    ensures Read(trace + [input]) == Note(Read(trace), input)
  {
    assert (trace + [input])[..|trace|] == trace;
  }

  lemma TellFits(c: L.Claim, p: Proc, m: Summary, row: Option<Attempt>, current: nat, input: Input)
    requires Fit(c, p, m, row, current) && Fits(p.pc, input) && !input.Fence?
    ensures Fit(c, Advance(p, input), Note(m, input), row, current)
  {
    AdvanceKeepsTraceInv(p, m, input);
  }

  predicate Writes(pc: Pc) {
    || pc.CreateHealthy? || pc.CreateDegraded? || pc.MarkRecovering? || pc.MarkVerifying?
    || pc.FinishReady? || pc.Failing?
  }

  lemma EventFits(c: L.Claim, p: Proc, m: Summary, row: Option<Attempt>, current: nat)
    requires Fit(c, p, m, row, current) && AtFence(p.pc) && !Writes(p.pc)
    ensures Fit(c, AfterFence(p), m, row, current)
  {
    FenceKeepsTraceInv(p, m);
  }

  lemma WriteFits(c: L.Claim, p: Proc, m: Summary, row: Option<Attempt>, current: nat)
    requires Fit(c, p, m, row, current) && Writes(p.pc) && c.generation == current
    ensures Fit(c, AfterFence(p), m, WrittenRow(row, p), current)
  {
    FenceKeepsTraceInv(p, m);
  }

  /** A fenced transaction: when the lease is held, the claim bears the current generation, so the
      row it writes is still open. */
  lemma FenceFits(c: L.Claim, p: Proc, m: Summary, row: Option<Attempt>, current: nat, held: bool)
    requires Fit(c, p, m, row, current) && AtFence(p.pc)
    requires held ==> c.generation == current
    ensures Fit(c, Advance(p, Fence(held)), m, if held then WrittenRow(row, p) else row, current)
  {
    if held && Writes(p.pc) {
      WriteFits(c, p, m, row, current);
    } else if held {
      EventFits(c, p, m, row, current);
    }
  }

  /** Being overtaken: the row is closed and the generation moves on. */
  lemma OvertakenFits(n: Session, row: Option<Attempt>, current: nat, stale: bool)
    requires FitSession(n, row, current)
    ensures FitSession(n, if row.Some? then Some(ClosedRow(row.value, stale)) else None, current + 1)
  {
  }

  // All sessions together

  /** A step of one session that changes at most its own row and no generation. */
  ghost predicate Local(s: Sys, t: Sys, id: string) {
    && id in s.sessions
    && t.sessions.Keys == s.sessions.Keys
    && (forall other :: other in s.sessions ==> t.sessions[other].claim == s.sessions[other].claim)
    && (forall other :: other in s.sessions && other != id ==> t.sessions[other] == s.sessions[other])
    && (forall other :: other != id ==> Lookup(t.attempts, other) == Lookup(s.attempts, other))
    && (forall r :: L.Generation(t.leases, r) == L.Generation(s.leases, r))
  }

  lemma SameFit(s: Sys, t: Sys, id: string)
    requires id in s.sessions && id in t.sessions && t.sessions[id] == s.sessions[id]
    requires Lookup(t.attempts, id) == Lookup(s.attempts, id)
    requires L.Generation(t.leases, s.sessions[id].claim.resource) ==
        L.Generation(s.leases, s.sessions[id].claim.resource)
    requires SessionFits(s, id)
    ensures SessionFits(t, id)
  {
  }

  lemma LocalKeepsInv(s: Sys, t: Sys, id: string)
    requires SysInv(s) && Local(s, t, id) && SessionFits(t, id)
    ensures SysInv(t)
  {
    forall other | other in t.sessions ensures SessionFits(t, other) {
      if other != id {
        SameFit(s, t, other);
      }
    }
    forall a, b | a in t.sessions && b in t.sessions && a != b ensures Apart(t, a, b) {
      assert Apart(s, a, b);
    }
    forall other | other in t.attempts ensures other in t.sessions {
      if other != id {
        assert Lookup(t.attempts, other) == Lookup(s.attempts, other);
      }
    }
  }

  lemma TransactIsLocal(s: Sys, id: string)
    requires id in s.sessions
    ensures Local(s, Transacted(s, id), id)
  {
  }

  lemma RenewIsLocal(s: Sys, id: string, read: int)
    requires id in s.sessions
    ensures Local(s, Renewed(s, id, read), id)
  {
  }

  lemma TransactKeepsInv(s: Sys, id: string)
    requires SysInv(s) && id in s.sessions && AtFence(s.sessions[id].proc.pc)
    ensures SysInv(Transacted(s, id))
  {
    var n, t := s.sessions[id], Transacted(s, id);
    assert SessionFits(s, id);
    var held := L.Honoured(s.leases, n.claim, s.clock);
    var row, current := Lookup(s.attempts, id), L.Generation(s.leases, n.claim.resource);
    FenceFits(n.claim, n.proc, Read(n.trace), row, current, held);
    ReadExtended(n.trace, Fence(held));
    TransactIsLocal(s, id);
    assert Lookup(t.attempts, id) == if held then WrittenRow(row, n.proc) else row;
    LocalKeepsInv(s, t, id);
  }

  lemma RenewKeepsInv(s: Sys, id: string, read: int)
    requires SysInv(s) && id in s.sessions
    requires s.sessions[id].proc.pc.PreBeat? || s.sessions[id].proc.pc.PostBeat?
    ensures SysInv(Renewed(s, id, read))
  {
    var n, t := s.sessions[id], Renewed(s, id, read);
    assert SessionFits(s, id);
    var ok := L.Heartbeat(L.RecoveryLease, s.leases, n.claim, n.proc.policy.ttl, read).1;
    TellFits(n.claim, n.proc, Read(n.trace), Lookup(s.attempts, id), L.Generation(s.leases, n.claim.resource),
        Beat(ok));
    ReadExtended(n.trace, Beat(ok));
    RenewIsLocal(s, id, read);
    assert L.Generation(t.leases, n.claim.resource) == L.Generation(s.leases, n.claim.resource);
    LocalKeepsInv(s, t, id);
  }

  lemma NewcomerFits(policy: Policy, claim: L.Claim)
    requires ValidPolicy(policy) && claim.resource == policy.id && claim.generation >= 1
    ensures FitSession(Session(claim, Start(policy, claim.generation), [], true), None, claim.generation)
  {
  }

  lemma BystanderFits(s: Sys, id: string, policy: Policy, owner: string, read: int, other: string)
    requires SessionFitsIn(s, other) && id !in s.sessions && id !in s.attempts && other != id
    requires Begun(s, id, policy, owner, read) != s
    ensures SessionFitsIn(Begun(s, id, policy, owner, read), other)
  {
    var t := Begun(s, id, policy, owner, read);
    var stale := policy.id in s.leases && s.leases[policy.id].state == L.Owned;
    var n := s.sessions[other];
    var row := Lookup(s.attempts, other);
    assert t.sessions[other] == n;
    if n.claim.resource == policy.id {
      OvertakenFits(n, row, L.Generation(s.leases, policy.id), stale);
      assert Lookup(t.attempts, other) == if row.Some? then Some(ClosedRow(row.value, stale)) else None;
    } else {
      assert Lookup(t.attempts, other) == row;
    }
  }

  ghost predicate SessionFitsIn(s: Sys, id: string) {
    id in s.sessions && SessionFits(s, id)
  }

  lemma BeginKeepsInv(s: Sys, id: string, policy: Policy, owner: string, read: int)
    requires SysInv(s) && id !in s.sessions && ValidPolicy(policy)
    ensures SysInv(Begun(s, id, policy, owner, read))
  {
    var t := Begun(s, id, policy, owner, read);
    if t != s {
      assert id !in s.attempts;
      NewcomerFits(policy, t.sessions[id].claim);
      forall other | other in t.sessions && other != id ensures SessionFitsIn(t, other) {
        assert SessionFits(s, other);
        BystanderFits(s, id, policy, owner, read, other);
      }
      assert SessionFits(t, id);
      forall a, b | a in t.sessions && b in t.sessions && a != b ensures Apart(t, a, b) {
        if a != id && b != id {
          assert Apart(s, a, b);
        } else {
          assert SessionFits(s, if a == id then b else a);
        }
      }
    }
  }

  lemma TellKeepsInv(s: Sys, id: string, input: Input)
    requires SysInv(s) && id in s.sessions
    requires Fits(s.sessions[id].proc.pc, input) && !input.Fence? && !input.Beat?
    ensures SysInv(s.(sessions := s.sessions[id := Moved(s.sessions[id], input)]))
  {
    assert SessionFits(s, id);
    var n := s.sessions[id];
    TellFits(n.claim, n.proc, Read(n.trace), Lookup(s.attempts, id),
             L.Generation(s.leases, n.claim.resource), input);
    ReadExtended(n.trace, input);
    LocalKeepsInv(s, s.(sessions := s.sessions[id := Moved(s.sessions[id], input)]), id);
  }

  lemma HaltKeepsInv(s: Sys, id: string)
    requires SysInv(s) && id in s.sessions
    ensures SysInv(s.(sessions := s.sessions[id := s.sessions[id].(running := false)]))
  {
    assert SessionFits(s, id);
    LocalKeepsInv(s, s.(sessions := s.sessions[id := s.sessions[id].(running := false)]), id);
  }

  lemma GiveUpKeepsInv(s: Sys, id: string, lost: bool, read: int)
    requires SysInv(s) && id in s.sessions
    ensures SysInv(s.(leases := L.Release(s.leases, s.sessions[id].claim, lost, read).0))
  {
    var t := s.(leases := L.Release(s.leases, s.sessions[id].claim, lost, read).0);
    assert SessionFits(s, id);
    assert forall r :: L.Generation(t.leases, r) == L.Generation(s.leases, r);
    SameFit(s, t, id);
    LocalKeepsInv(s, t, id);
  }

  lemma NextKeepsInv(s: Sys, step: Step)
    requires SysInv(s)
    ensures SysInv(Next(s, step))
  {
    var t := Next(s, step);
    if t != s {
      match step
      case Tick(_) => SameTables(s, t);
      case Begin(id, policy, owner, read) => BeginKeepsInv(s, id, policy, owner, read);
      case Tell(id, input) => TellKeepsInv(s, id, input);
      case Transact(id) => TransactKeepsInv(s, id);
      case Renew(id, read) => RenewKeepsInv(s, id, read);
      case Halt(id) => HaltKeepsInv(s, id);
      case GiveUp(id, lost, read) => GiveUpKeepsInv(s, id, lost, read);
    }
  }

  lemma SameTables(s: Sys, t: Sys)
    requires SysInv(s) && t.leases == s.leases && t.attempts == s.attempts && t.sessions == s.sessions
    ensures SysInv(t)
  {
    forall id | id in t.sessions ensures SessionFits(t, id) {
      assert SessionFits(s, id);
    }
    forall a, b | a in t.sessions && b in t.sessions && a != b ensures Apart(t, a, b) {
      assert Apart(s, a, b);
    }
  }

  lemma {:induction false} InvAlways(clock: int, steps: seq<Step>, n: nat)
    requires n <= |steps|
    ensures SysInv(After(Fresh(clock), steps, n))
  {
    if n > 0 {
      InvAlways(clock, steps, n - 1);
      NextKeepsInv(After(Fresh(clock), steps, n - 1), steps[n - 1]);
    }
  }

  // Main results

  /** In every reachable state a policy has at most one unfinished attempt, and that attempt bears
      the current generation of the policy's lease. */
  lemma OneOpenAttempt(clock: int, steps: seq<Step>, n: nat, a: string, b: string)
    requires n <= |steps|
    requires var s := After(Fresh(clock), steps, n);
      && a in s.attempts && !s.attempts[a].finished
      && b in s.attempts && !s.attempts[b].finished
      && s.attempts[a].policy == s.attempts[b].policy
    ensures a == b
    ensures var s := After(Fresh(clock), steps, n);
      s.attempts[a].generation == L.Generation(s.leases, s.attempts[a].policy)
  {
    InvAlways(clock, steps, n);
    var s := After(Fresh(clock), steps, n);
    assert SessionFits(s, a) && SessionFits(s, b);
    assert a != b ==> Apart(s, a, b);
  }

  predicate IsFinished(s: Sys, id: string) { id in s.attempts && s.attempts[id].finished }

  /** The session of a finished row is past writing, or its lease is lost. */
  lemma FinishedIsFenced(s: Sys, id: string)
    requires SysInv(s) && IsFinished(s, id)
    ensures id in s.sessions
    ensures Writes(s.sessions[id].proc.pc) ==> !L.Honoured(s.leases, s.sessions[id].claim, s.clock)
  {
    assert SessionFits(s, id);
    var pc := s.sessions[id].proc.pc;
    assert Writes(pc) ==> InFlight(pc) || Uncreated(pc);
  }

  lemma TransactKeepsFinished(s: Sys, id: string, other: string)
    requires SysInv(s) && other in s.sessions
    ensures IsFinished(s, id) ==> Lookup(Transacted(s, other).attempts, id) == Lookup(s.attempts, id)
  {
    if IsFinished(s, id) {
      FinishedIsFenced(s, id);
    }
  }

  lemma BeginKeepsFinished(s: Sys, id: string, other: string, policy: Policy, owner: string, read: int)
    ensures IsFinished(s, id) ==> Lookup(Begun(s, other, policy, owner, read).attempts, id) == Lookup(s.attempts, id)
  {
  }

  lemma OtherStepsLeaveAttempts(s: Sys, step: Step)
    requires !step.Begin? && !step.Transact?
    ensures Next(s, step).attempts == s.attempts
  {
  }

  /** A finished row survives any single step. */
  lemma StepKeepsFinished(s: Sys, step: Step, id: string)
    requires SysInv(s)
    ensures IsFinished(s, id) ==> Lookup(Next(s, step).attempts, id) == Lookup(s.attempts, id)
  {
    match step
    case Begin(other, policy, owner, read) => BeginKeepsFinished(s, id, other, policy, owner, read);
    case Transact(other) =>
      if other in s.sessions {
        TransactKeepsFinished(s, id, other);
      }
    case _ => OtherStepsLeaveAttempts(s, step);
  }

  lemma NextKeepsFinished(clock: int, steps: seq<Step>, n: nat, id: string)
    requires n < |steps|
    ensures IsFinished(After(Fresh(clock), steps, n), id) ==>
      Lookup(After(Fresh(clock), steps, n + 1).attempts, id) == Lookup(After(Fresh(clock), steps, n).attempts, id)
  {
    InvAlways(clock, steps, n);
    StepKeepsFinished(After(Fresh(clock), steps, n), steps[n], id);
  }

  /** A finished attempt row never changes again, even when its owner lapsed, was overtaken and goes
      on running. */
  lemma {:induction false} FinishedRowsAreFinal(clock: int, steps: seq<Step>, m: nat, n: nat, id: string)
    requires m <= n <= |steps| && IsFinished(After(Fresh(clock), steps, m), id)
    ensures Lookup(After(Fresh(clock), steps, n).attempts, id)
         == Lookup(After(Fresh(clock), steps, m).attempts, id)
    decreases n
  {
    if m < n {
      FinishedRowsAreFinal(clock, steps, m, n - 1, id);
      NextKeepsFinished(clock, steps, n - 1, id);
    }
  }

  /** The adapter calls that a session has started: those answered, and one that is in progress, or was
      when the session crashed. */
  function CallsStarted(n: Session): nat {
    Read(n.trace).calls + (if n.proc.pc.Dispatching? then 1 else 0)
  }

  /** No session ever calls the adapter more often than its policy allows, whether it returned, was
      overtaken or crashed, in the middle of a call or not. Its durable attempt_count never falls behind
      the calls started and is ahead of those answered by at most one, and the CHECK constraints of the
      table hold. */
  lemma CallsAreBoundedAndCounted(clock: int, steps: seq<Step>, n: nat, id: string)
    requires n <= |steps|
    requires id in After(Fresh(clock), steps, n).sessions
    ensures var s := After(Fresh(clock), steps, n);
      var session := s.sessions[id];
      && CallsStarted(session) <= session.proc.policy.maxAttempts
      && (id in s.attempts ==>
            CallsStarted(session) <= s.attempts[id].count <= Read(session.trace).calls + 1
                && WellFormed(s.attempts[id]))
      && (id !in s.attempts ==> CallsStarted(session) == 0)
  {
    InvAlways(clock, steps, n);
    var s := After(Fresh(clock), steps, n);
    assert SessionFits(s, id);
    assert FitSession(s.sessions[id], Lookup(s.attempts, id), L.Generation(s.leases, s.sessions[id].claim.resource));
  }

  // The deadline of a dispatched request

  predicate By(step: Step, id: string) {
    !step.Tick? && step.id == id
  }

  /** The row of a claim and the session that holds it are as before. */
  predicate RowStays(s: Sys, t: Sys, id: string)
    requires id in s.sessions
  {
    var c := s.sessions[id].claim;
    && id in t.sessions && t.sessions[id] == s.sessions[id]
    && L.Matches(t.leases, c) && c.resource in s.leases && t.leases[c.resource] == s.leases[c.resource]
  }

  /** The session holds its lease, which has not lapsed. */
  predicate Holds(s: Sys, id: string)
    requires id in s.sessions
  {
    L.Matches(s.leases, s.sessions[id].claim) && s.clock < s.leases[s.sessions[id].claim.resource].expiresAt
  }

  lemma BeginLeavesTheRow(s: Sys, id: string, other: string, policy: Policy, owner: string, read: int)
    requires id in s.sessions && id != other
    ensures Holds(s, id) && read <= s.clock ==> RowStays(s, Begun(s, other, policy, owner, read), id)
  {
  }

  lemma RenewLeavesTheRow(s: Sys, id: string, other: string, read: int)
    requires id in s.sessions && other in s.sessions && id != other && Apart(s, id, other)
    ensures Holds(s, id) ==> RowStays(s, Renewed(s, other, read), id)
  {
  }

  lemma GiveUpLeavesTheRow(s: Sys, id: string, other: string, lost: bool, read: int)
    requires id in s.sessions && other in s.sessions && id != other && Apart(s, id, other)
    ensures Holds(s, id) ==>
      RowStays(s, s.(leases := L.Release(s.leases, s.sessions[other].claim, lost, read).0), id)
  {
  }

  lemma StaysInPlace(s: Sys, id: string)
    requires id in s.sessions
    ensures Holds(s, id) ==> RowStays(s, s, id)
  {
  }

  /** Steps of others, taken before the lease lapses, leave the row of a claim alone. */
  lemma OthersLeaveTheRow(s: Sys, step: Step, id: string)
    requires SysInv(s) && id in s.sessions && !By(step, id) && Holds(s, id)
    ensures RowStays(s, Next(s, step), id)
  {
    StaysInPlace(s, id);
    match step
    case Tick(_) =>
    case Begin(other, policy, owner, read) => BeginLeavesTheRow(s, id, other, policy, owner, read);
    case Tell(_, _) =>
    case Transact(_) =>
    case Renew(other, read) =>
      if other in s.sessions {
        assert Apart(s, id, other);
        RenewLeavesTheRow(s, id, other, read);
      }
    case Halt(_) =>
    case GiveUp(other, lost, read) =>
      if other in s.sessions {
        assert Apart(s, id, other);
        GiveUpLeavesTheRow(s, id, other, lost, read);
      }
  }

  lemma ClockGrows(s: Sys, step: Step)
    ensures s.clock <= Next(s, step).clock
  {
  }

  lemma {:induction false} RowOutlasts(s: Sys, steps: seq<Step>, n: nat, id: string)
    requires n <= |steps| && SysInv(s) && id in s.sessions
    requires forall k :: 0 <= k < n ==> !By(steps[k], id)
    requires var c := s.sessions[id].claim;
      L.Matches(s.leases, c) && After(s, steps, n).clock < s.leases[c.resource].expiresAt
    ensures SysInv(After(s, steps, n)) && RowStays(s, After(s, steps, n), id)
  {
    if n > 0 {
      var t := After(s, steps, n - 1);
      ClockGrows(t, steps[n - 1]);
      RowOutlasts(s, steps, n - 1, id);
      NextKeepsInv(t, steps[n - 1]);
      OthersLeaveTheRow(t, steps[n - 1], id);
    }
  }

  /** The session has renewed its lease at clock value read and now waits for the adapter. */
  predicate Dispatched(s: Sys, id: string, read: int) {
    && id in s.sessions && s.sessions[id].proc.pc == Dispatching
    && s.sessions[id].claim.resource == s.sessions[id].proc.policy.id
    && L.Matches(s.leases, s.sessions[id].claim)
    && s.leases[s.sessions[id].claim.resource].expiresAt == read + s.sessions[id].proc.policy.ttl
  }

  lemma OnlyBeatsDispatch(p: Proc, input: Input)
    requires p.pc != Dispatching && Advance(p, input).pc == Dispatching
    ensures p.pc == PreBeat && input == Beat(true)
  {
  }

  /** The only way to the adapter leads through such a renewal. */
  lemma RenewalDispatches(s: Sys, step: Step, id: string)
    requires id in s.sessions && s.sessions[id].claim.resource == s.sessions[id].proc.policy.id
    requires s.sessions[id].proc.pc != Dispatching
    requires id in Next(s, step).sessions && Next(s, step).sessions[id].proc.pc == Dispatching
    ensures step.Renew? && step.id == id && step.read <= s.clock
    ensures Dispatched(Next(s, step), id, step.read)
  {
    var n, p := s.sessions[id], s.sessions[id].proc;
    match step
    case Renew(other, read) =>
      OnlyBeatsDispatch(p, Beat(L.Heartbeat(L.RecoveryLease, s.leases, n.claim, p.policy.ttl, read).1));
    case Tell(other, input) => OnlyBeatsDispatch(p, input);
    case Transact(other) => OnlyBeatsDispatch(p, Fence(L.Honoured(s.leases, n.claim, s.clock)));
    case _ =>
  }

  /** No takeover before the deadline: a request created within the margin that the adapter bound
      leaves to the lease keeps its lease until its deadline, whatever the others do. */
  lemma NoTakeoverBeforeDeadline(s: Sys, id: string, read: int, requestedAt: int, steps: seq<Step>)
    requires SysInv(s) && Dispatched(s, id, read)
    requires forall k :: 0 <= k < |steps| ==> !By(steps[k], id)
    requires var p := s.sessions[id].proc.policy;
      && requestedAt - read <= p.ttl - p.maxOperation
      && After(s, steps, |steps|).clock < requestedAt + p.maxOperation
    ensures var t := After(s, steps, |steps|);
      && id in t.sessions && t.sessions[id] == s.sessions[id]
      && L.Honoured(t.leases, s.sessions[id].claim, t.clock)
  {
    RowOutlasts(s, steps, |steps|, id);
  }

  /** A request created any later can lose its lease before its deadline: the clock reaches the
      lapse and somebody else acquires. */
  lemma LateRequestsCanBeOvertaken(s: Sys, id: string, read: int, requestedAt: int, other: string, owner: string)
    requires Dispatched(s, id, read) && other !in s.sessions && other != id
    requires var p := s.sessions[id].proc.policy;
      && ValidPolicy(p) && s.clock <= read + p.ttl
      && requestedAt - read > p.ttl - p.maxOperation
    ensures var p := s.sessions[id].proc.policy;
      var late := Next(s, Tick(read + p.ttl - s.clock));
      var t := Next(late, Begin(other, p, owner, read + p.ttl));
      && t.clock < requestedAt + p.maxOperation
      && id in t.sessions && t.sessions[id] == s.sessions[id]
      && !L.Matches(t.leases, s.sessions[id].claim)
  {
  }

  /** Ten seconds are always within the margin. */
  lemma TenSecondsAreSafe(p: Policy, read: int, requestedAt: int)
    requires ValidPolicy(p) && requestedAt - read <= 10 * SECOND
    ensures requestedAt - read <= p.ttl - p.maxOperation
  {
  }
}
