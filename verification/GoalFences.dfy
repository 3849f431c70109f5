/**
 Several engines on one goal at once (src/project_supervisor/autonomy.py). The goal lease is asserted
 outside the engine's transactions, so a process whose lease has lapsed may go on beside its successor.
 What then still holds rests on the tests inside the transactions alone. Every engine may commit any of
 its transactions at any moment, with whatever it read before.
 */
module GoalFences {
  import opened Options
  import opened GoalRows
  import opened GoalHistory
  import opened GoalSteps

  /** What an engine has read: the steer version of its last context, whether the iteration guard let it
      pass, and the verification that it is about to apply with the version that fences it. */
  datatype Session = Session(context: Option<nat>, guarded: bool, verdict: Option<(Verification, int)>)

  const BLANK_SESSION := Session(None, false, None)

  datatype System = System(world: World, sessions: seq<Session>)

  /** One transaction or one read of engine e, or a control. */
  datatype Step =
    | Controlling(c: Control, now: int)
    | Restart(e: nat)
    | ReadContext(e: nat)
    | Guard(e: nat)
    | StartGoal(now: int)
    | Begin(e: nat)
    | SetPhase(i: nat, phase: Phase)
    | Fence(i: nat, expected: int)
    | RecordEvaluation(e: nat, i: nat, evaluation: Evaluation)
    | RecordPlan(e: nat, i: nat, keys: seq<string>)
    | RecordVerification(e: nat, i: nat, verification: Verification)
    | Reload(e: nat, i: nat)
    | Replan(i: nat, verification: Verification, failures: nat)
    | EndInSuccess(e: nat, i: nat, now: int)
    | EndPhase(i: nat, reason: Reason, expected: int, now: int)
    | End(reason: Reason, now: int)
    | SetAction(i: nat, a: nat, action: Action)
    | NoteCancellation(i: nat, a: nat)

  /** The session that a step belongs to, if it needs one. */
  function EngineOf(step: Step): Option<nat> {
    match step
    case Restart(e) => Some(e)
    case ReadContext(e) => Some(e)
    case Guard(e) => Some(e)
    case Begin(e) => Some(e)
    case RecordEvaluation(e, _, _) => Some(e)
    case RecordPlan(e, _, _) => Some(e)
    case RecordVerification(e, _, _) => Some(e)
    case Reload(e, _) => Some(e)
    case EndInSuccess(e, _, _) => Some(e)
    case _ => None
  }

  /** The iteration row that a step is about. */
  function RowUnder(step: Step): Option<nat> {
    match step
    case SetPhase(i, _) => Some(i)
    case Fence(i, _) => Some(i)
    case RecordEvaluation(_, i, _) => Some(i)
    case RecordPlan(_, i, _) => Some(i)
    case RecordVerification(_, i, _) => Some(i)
    case Reload(_, i) => Some(i)
    case Replan(i, _, _) => Some(i)
    case EndInSuccess(_, i, _) => Some(i)
    case EndPhase(i, _, _, _) => Some(i)
    case SetAction(i, _, _) => Some(i)
    case NoteCancellation(i, _) => Some(i)
    case _ => None
  }

  /** What an engine has in hand when it takes the step. Nothing is asked of the row itself: which phase
      it is in or what it holds was read earlier, if at all. A row has room for one plan. */
  predicate Enabled(s: System, step: Step) {
    && (EngineOf(step).Some? ==> EngineOf(step).value < |s.sessions|)
    && (RowUnder(step).Some? ==> RowUnder(step).value < |s.world.iterations|)
    && match step
       case Begin(e) => s.sessions[e].guarded
       case RecordEvaluation(e, _, _) => s.sessions[e].context.Some?
       case RecordPlan(e, i, _) => s.sessions[e].context.Some? && s.world.iterations[i].actions == []
       case RecordVerification(e, _, _) => s.sessions[e].context.Some?
       case Reload(_, i) => s.world.iterations[i].verification.Some?
       case EndInSuccess(e, _, _) => s.sessions[e].verdict.Some? && s.sessions[e].verdict.value.0.satisfied
       case EndPhase(_, reason, _, _) => !reason.Success?
       case End(reason, _) => !reason.Success?
       case SetAction(i, a, _) => a < |s.world.iterations[i].actions|
       case _ => true
  }

  /** The store after a step. */
  function WorldAfter(s: System, step: Step): World
    requires Enabled(s, step)
  {
    match step
    case Controlling(c, now) => Controlled(s.world, c, now)
    case StartGoal(now) => Started(s.world, now)
    case Begin(_) => Begun(s.world)
    case SetPhase(i, phase) => Reset(s.world, i, phase)
    case Fence(i, expected) => Fenced(s.world, i, expected)
    case RecordEvaluation(e, i, evaluation) =>
      EvaluationRecorded(s.world, i, evaluation, s.sessions[e].context.value)
    case RecordPlan(e, i, keys) => PlanRecorded(s.world, i, keys, s.sessions[e].context.value)
    case RecordVerification(e, i, v) => VerificationRecorded(s.world, i, v, s.sessions[e].context.value)
    case Replan(i, v, failures) => ReplanCompleted(s.world, i, v, failures)
    case EndInSuccess(e, i, now) => PhaseEnded(s.world, i, Success, s.sessions[e].verdict.value.1, now)
    case EndPhase(i, reason, expected, now) => PhaseEnded(s.world, i, reason, expected, now)
    case End(reason, now) => Ended(s.world, reason, now)
    case SetAction(i, a, action) => ActionSet(s.world, i, a, action)
    case NoteCancellation(i, a) => CancellationNoted(s.world, i, a)
    case _ => s.world
  }

  /** What the engine of a step has in hand after it. */
  function SessionAfter(s: System, step: Step): Session
    requires Enabled(s, step) && EngineOf(step).Some?
  {
    var session := s.sessions[EngineOf(step).value];
    match step
    case Restart(_) => BLANK_SESSION
    case ReadContext(_) => session.(context := Some(s.world.goal.steerVersion))
    case Guard(_) => session.(guarded := s.world.goal.iterationCount < s.world.goal.budget.maxIterations)
    case Begin(_) => session.(guarded := false)
    case RecordVerification(e, i, v) =>
      if Stale(s.world, session.context.value) then session
      else session.(verdict := Some((v, session.context.value)))
    case Reload(e, i) =>
      var c := s.world.iterations[i].verification.value;
      session.(verdict := Some((c.value, RestoredVersion(c, s.world.goal.steerVersion))))
    case _ => session
  }

  function Next(s: System, step: Step): System {
    if !Enabled(s, step) then s
    else
      System(WorldAfter(s, step),
             if EngineOf(step).Some? then s.sessions[EngineOf(step).value := SessionAfter(s, step)] else s.sessions)
  }

  /** A new goal and n engine processes that have read nothing yet. */
  function Initial(b: Budget, n: nat): System {
    System(CreateGoal(b), seq(n, _ => BLANK_SESSION))
  }

  function Run(b: Budget, n: nat, steps: seq<Step>): System {
    if steps == [] then Initial(b, n) else Next(Run(b, n, steps[..|steps| - 1]), steps[|steps| - 1])
  }

  // The invariant of the journal, the rows and the sessions

  predicate NoEndBefore(es: seq<Event>, n: nat)
    requires n <= |es|
  {
    forall m :: 0 <= m < n ==> !Ends(es[m])
  }

  /** Event k rests on the guidance of its moment, and starts, controls or ends only a goal that has not
      ended. */
  predicate FencedEvent(es: seq<Event>, k: nat)
    requires k < |es|
  {
    && (BasisOf(es[k]).Some? ==> BasisOf(es[k]).value == SteersBefore(es, k))
    && (es[k].GoalSteered? ==> es[k].sequence == SteersBefore(es, k) + 1)
    && (IsLifecycle(es[k]) ==> NoEndBefore(es, k))
  }

  ghost predicate FencedJournal(es: seq<Event>) {
    forall k :: 0 <= k < |es| ==> FencedEvent(es, k)
  }

  /** The verification v of guidance version was recorded. */
  predicate OnRecord(es: seq<Event>, v: Verification, version: int) {
    exists j :: 0 <= j < |es| && es[j].Verified? && es[j].verification == v && es[j].basis == version
  }

  /** Event j is a satisfied verification of the latest guidance. */
  predicate Vouches(es: seq<Event>, j: nat) {
    j < |es| && es[j].Verified? && es[j].verification.satisfied && NoSteerFrom(es, j)
  }

  predicate RowOnRecord(es: seq<Event>, row: Iteration) {
    row.verification.Some? ==>
      var c := row.verification.value;
      OnRecord(es, c.value, c.basis) && c.recorded == Some(c.basis)
  }

  predicate SessionOnRecord(es: seq<Event>, session: Session) {
    session.verdict.Some? ==> OnRecord(es, session.verdict.value.0, session.verdict.value.1)
  }

  /** The goal row and the journal agree on guidance and on the end of the goal. */
  ghost predicate GoalFits(g: Goal, es: seq<Event>) {
    && FencedJournal(es)
    && g.steerVersion == SteersBefore(es, |es|)
    && (!Terminal(g.state) ==> NoEndBefore(es, |es|) && g.reason.None?)
    && (g.reason == Some(Success) ==> exists j :: Vouches(es, j))
  }

  ghost predicate Fits(s: System) {
    && GoalFits(s.world.goal, s.world.events)
    && (forall i :: 0 <= i < |s.world.iterations| ==> RowOnRecord(s.world.events, s.world.iterations[i]))
    && (forall e :: 0 <= e < |s.sessions| ==> SessionOnRecord(s.world.events, s.sessions[e]))
  }

  // One more event

  lemma {:induction false} SteersOfPrefix(es: seq<Event>, e: Event, n: nat)
    requires n <= |es|
    ensures SteersBefore(es + [e], n) == SteersBefore(es, n)
  {
    if n > 0 {
      SteersOfPrefix(es, e, n - 1);
      assert (es + [e])[n - 1] == es[n - 1];
    }
  }

  lemma RecordStays(es: seq<Event>, e: Event, v: Verification, version: int)
    ensures OnRecord(es, v, version) ==> OnRecord(es + [e], v, version)
    ensures e.Verified? ==> OnRecord(es + [e], e.verification, e.basis)
  {
    if OnRecord(es, v, version) {
      var j :| 0 <= j < |es| && es[j].Verified? && es[j].verification == v && es[j].basis == version;
      assert (es + [e])[j] == es[j];
    }
    assert (es + [e])[|es|] == e;
  }

  lemma VouchingStays(es: seq<Event>, e: Event, j: nat)
    requires Vouches(es, j) && !e.GoalSteered?
    ensures Vouches(es + [e], j)
  {
    forall m | j <= m < |es + [e]|
      ensures !(es + [e])[m].GoalSteered?
    {
    }
  }

  /** What an event must be to follow a goal row and its journal. */
  predicate MayFollow(g: Goal, e: Event) {
    && (BasisOf(e).Some? ==> BasisOf(e).value == g.steerVersion)
    && (e.GoalSteered? ==> e.sequence == g.steerVersion + 1)
    && (IsLifecycle(e) ==> !Terminal(g.state))
  }

  lemma JournalGrows(g: Goal, es: seq<Event>, e: Event)
    requires GoalFits(g, es) && MayFollow(g, e)
    ensures FencedJournal(es + [e])
    ensures SteersBefore(es + [e], |es| + 1) == g.steerVersion + (if e.GoalSteered? then 1 else 0)
    ensures !Terminal(g.state) && !Ends(e) ==> NoEndBefore(es + [e], |es| + 1)
  {
    SteersOfPrefix(es, e, |es|);
    forall k | 0 <= k < |es + [e]|
      ensures FencedEvent(es + [e], k)
    {
      if k < |es| {
        SteersOfPrefix(es, e, k);
        assert FencedEvent(es, k) && (es + [e])[k] == es[k];
      }
    }
  }

  /** A goal row that follows event e: its guidance moves with a steer alone, and once ended it keeps its
      state and its reason. */
  predicate RowFollows(g: Goal, e: Event, h: Goal) {
    && h.steerVersion == g.steerVersion + (if e.GoalSteered? then 1 else 0)
    && (if Terminal(g.state) then h.state == g.state && h.reason == g.reason
        else if Ends(e) then Terminal(h.state)
        else !Terminal(h.state) && h.reason == g.reason)
  }

  lemma GoalFollows(g: Goal, es: seq<Event>, e: Event, h: Goal)
    requires GoalFits(g, es) && MayFollow(g, e) && RowFollows(g, e, h)
    requires h.reason == Some(Success) && !Terminal(g.state) ==> exists j :: Vouches(es, j)
    ensures GoalFits(h, es + [e])
  {
    JournalGrows(g, es, e);
    if h.reason == Some(Success) {
      var j :| Vouches(es, j);
      VouchingStays(es, e, j);
    }
  }

  /** Rows and sessions after event e: each keeps its verification, or holds the one that e records. */
  predicate SameVerification(r: Iteration, t: Iteration, e: Event) {
    || t.verification == r.verification
    || (e.Verified? && t.verification == Some(Checkpoint(e.verification, e.basis, Some(e.basis))))
  }

  lemma RowsFollow(es: seq<Event>, e: Event, r: Iteration, t: Iteration)
    requires RowOnRecord(es, r) && SameVerification(r, t, e)
    ensures RowOnRecord(es + [e], t)
  {
    if t.verification.Some? {
      RecordStays(es, e, t.verification.value.value, t.verification.value.basis);
    }
  }

  /** No step but a steer changes the guidance, and every step journals at most one event, which may follow
      what it finds. */
  predicate Follows(w: World, v: World) {
    && |w.events| < |v.events| && v.events == w.events + [v.events[|w.events|]]
    && MayFollow(w.goal, v.events[|w.events|]) && RowFollows(w.goal, v.events[|w.events|], v.goal)
    && |w.iterations| <= |v.iterations|
    && (forall i :: 0 <= i < |w.iterations| ==>
          SameVerification(w.iterations[i], v.iterations[i], v.events[|w.events|]))
    && (forall i :: |w.iterations| <= i < |v.iterations| ==> v.iterations[i].verification.None?)
  }

  /** Or it journals nothing. */
  predicate Silent(w: World, v: World) {
    && v.events == w.events && v.goal == w.goal && |v.iterations| == |w.iterations|
    && (forall i :: 0 <= i < |w.iterations| ==> v.iterations[i].verification == w.iterations[i].verification)
  }

  lemma ControlFollows(w: World, c: Control, now: int)
    ensures Silent(w, Controlled(w, c, now)) || Follows(w, Controlled(w, c, now))
  {
  }

  lemma EndFollows(w: World, i: nat, reason: Reason, expected: int, now: int)
    ensures Silent(w, Ended(w, reason, now)) || Follows(w, Ended(w, reason, now))
    ensures i < |w.iterations| ==>
      var v := PhaseEnded(w, i, reason, expected, now);
      Silent(w, v) || Follows(w, v)
  {
  }

  lemma StepFollows(s: System, step: Step)
    requires Enabled(s, step)
    ensures Silent(s.world, WorldAfter(s, step)) || Follows(s.world, WorldAfter(s, step))
  {
    match step
    case Controlling(c, now) => ControlFollows(s.world, c, now);
    case EndInSuccess(e, i, now) => EndFollows(s.world, i, Success, s.sessions[e].verdict.value.1, now);
    case EndPhase(i, reason, expected, now) => EndFollows(s.world, i, reason, expected, now);
    case End(reason, now) => EndFollows(s.world, 0, reason, 0, now);
    case _ =>
  }

  /** A verification of the latest guidance that is on record vouches for the goal. */
  lemma RecordVouches(g: Goal, es: seq<Event>, v: Verification) returns (j: nat)
    requires GoalFits(g, es) && OnRecord(es, v, g.steerVersion) && v.satisfied
    ensures Vouches(es, j)
  {
    j :| j < |es| && es[j].Verified? && es[j].verification == v && es[j].basis == g.steerVersion;
    assert FencedEvent(es, j);
    forall m | j <= m < |es|
      ensures !es[m].GoalSteered?
    {
      SteersGrow(es, j, m, |es|);
    }
  }

  /** Only an engine that holds a satisfied verification of the latest guidance ends a goal in SUCCESS. */
  lemma SuccessIsVouched(s: System, step: Step) returns (j: nat)
    requires Fits(s) && Enabled(s, step) && !Terminal(s.world.goal.state)
    requires WorldAfter(s, step).goal.reason == Some(Success)
    ensures Vouches(s.world.events, j)
  {
    assert step.EndInSuccess?;
    assert SessionOnRecord(s.world.events, s.sessions[step.e]);
    j := RecordVouches(s.world.goal, s.world.events, s.sessions[step.e].verdict.value.0);
  }

  lemma GoalStaysFit(s: System, step: Step)
    requires Fits(s) && Enabled(s, step)
    ensures GoalFits(WorldAfter(s, step).goal, WorldAfter(s, step).events)
  {
    var w, v := s.world, WorldAfter(s, step);
    StepFollows(s, step);
    if !Silent(w, v) {
      if v.goal.reason == Some(Success) && !Terminal(w.goal.state) {
        var j := SuccessIsVouched(s, step);
      }
      GoalFollows(w.goal, w.events, v.events[|w.events|], v.goal);
    }
  }

  lemma RowsStayFit(s: System, step: Step, i: nat)
    requires Fits(s) && Enabled(s, step) && i < |WorldAfter(s, step).iterations|
    ensures RowOnRecord(WorldAfter(s, step).events, WorldAfter(s, step).iterations[i])
  {
    var w, v := s.world, WorldAfter(s, step);
    StepFollows(s, step);
    if i < |w.iterations| {
      assert RowOnRecord(w.events, w.iterations[i]);
      if !Silent(w, v) {
        RowsFollow(w.events, v.events[|w.events|], w.iterations[i], v.iterations[i]);
      }
    }
  }

  lemma HeldStays(w: World, v: World, session: Session)
    requires Silent(w, v) || Follows(w, v)
    requires SessionOnRecord(w.events, session)
    ensures SessionOnRecord(v.events, session)
  {
    if session.verdict.Some? && !Silent(w, v) {
      RecordStays(w.events, v.events[|w.events|], session.verdict.value.0, session.verdict.value.1);
    }
  }

  /** What an engine comes to hold is on record. */
  lemma TakenIsOnRecord(s: System, step: Step)
    requires Fits(s) && Enabled(s, step) && EngineOf(step).Some?
    ensures SessionOnRecord(WorldAfter(s, step).events, SessionAfter(s, step))
  {
    var w, v, e := s.world, WorldAfter(s, step), EngineOf(step).value;
    StepFollows(s, step);
    assert SessionOnRecord(w.events, s.sessions[e]);
    HeldStays(w, v, s.sessions[e]);
    if step.Reload? {
      assert RowOnRecord(w.events, w.iterations[step.i]);
    } else if step.RecordVerification? && !Stale(w, s.sessions[e].context.value) {
      RecordStays(w.events, v.events[|w.events|], step.verification, s.sessions[e].context.value);
    }
  }

  lemma NextFits(s: System, step: Step)
    requires Fits(s)
    ensures Fits(Next(s, step))
  {
    if Enabled(s, step) {
      var t := Next(s, step);
      GoalStaysFit(s, step);
      StepFollows(s, step);
      forall i | 0 <= i < |t.world.iterations|
        ensures RowOnRecord(t.world.events, t.world.iterations[i])
      {
        RowsStayFit(s, step, i);
      }
      forall e | 0 <= e < |t.sessions|
        ensures SessionOnRecord(t.world.events, t.sessions[e])
      {
        if EngineOf(step) == Some(e) {
          TakenIsOnRecord(s, step);
        } else {
          HeldStays(s.world, t.world, s.sessions[e]);
        }
      }
    }
  }

  lemma {:induction false} RunsFit(b: Budget, n: nat, steps: seq<Step>)
    ensures Fits(Run(b, n, steps))
  {
    if steps == [] {
      assert CreateGoal(b).events == [GoalCreated];
    } else {
      RunsFit(b, n, steps[..|steps| - 1]);
      NextFits(Run(b, n, steps[..|steps| - 1]), steps[|steps| - 1]);
    }
  }

  // What survives several engines at once

  /** However many engines overlap, every evaluation, plan and verification is committed under the very
      guidance that the context of its engine carried, and steers are numbered without a gap. */
  lemma OverlappingDecisionsAreCurrent(b: Budget, n: nat, steps: seq<Step>, k: nat)
    requires k < |Run(b, n, steps).world.events|
    ensures var es := Run(b, n, steps).world.events;
            && (BasisOf(es[k]).Some? ==> BasisOf(es[k]) == Some(SteersBefore(es, k)))
            && (es[k].GoalSteered? ==> es[k].sequence == SteersBefore(es, k) + 1)
  {
    RunsFit(b, n, steps);
    assert FencedEvent(Run(b, n, steps).world.events, k);
  }

  /** And a goal in SUCCESS carries a satisfied verification of its final guidance, after whose context
      nobody steered. */
  lemma OverlappingSuccessWasVerified(b: Budget, n: nat, steps: seq<Step>) returns (j: nat)
    requires Run(b, n, steps).world.goal.reason == Some(Success)
    ensures var w := Run(b, n, steps).world;
            && j < |w.events| && w.events[j].Verified? && w.events[j].verification.satisfied
            && w.events[j].basis == w.goal.steerVersion && NoSteerFrom(w.events, j)
  {
    RunsFit(b, n, steps);
    var w := Run(b, n, steps).world;
    j :| Vouches(w.events, j);
    assert FencedEvent(w.events, j);
    NoSteersNoCount(w.events, j, |w.events|);
  }

  /** And being stopped or terminated is final: no start, control or termination follows it. */
  lemma OverlappingEndsAreFinal(b: Budget, n: nat, steps: seq<Step>, j: nat, k: nat)
    requires j < k < |Run(b, n, steps).world.events| && Ends(Run(b, n, steps).world.events[j])
    ensures !IsLifecycle(Run(b, n, steps).world.events[k])
  {
    RunsFit(b, n, steps);
    assert FencedEvent(Run(b, n, steps).world.events, k);
  }

  // What does not: the iteration budget

  function Guarded(sessions: seq<Session>): nat {
    if sessions == [] then 0
    else Guarded(sessions[..|sessions| - 1]) + (if sessions[|sessions| - 1].guarded then 1 else 0)
  }

  lemma {:induction false} GuardedBy(sessions: seq<Session>, e: nat, session: Session)
    requires e < |sessions|
    ensures Guarded(sessions[e := session]) ==
      Guarded(sessions) - (if sessions[e].guarded then 1 else 0) + (if session.guarded then 1 else 0)
    ensures Guarded(sessions) <= |sessions|
  {
    var n := |sessions| - 1;
    if e < n {
      GuardedBy(sessions[..n], e, session);
      assert sessions[e := session][..n] == sessions[..n][e := session];
    } else {
      assert sessions[e := session][..n] == sessions[..n];
      if n > 0 { GuardedBy(sessions[..n], 0, session); }
    }
  }

  /** At or above the limit, every engine that may still begin an iteration is one of the others. */
  ghost predicate Overrun(s: System, b: Budget, n: nat) {
    && s.world.goal.budget == b && |s.sessions| == n
    && (s.world.goal.iterationCount >= b.maxIterations ==>
          s.world.goal.iterationCount + Guarded(s.sessions) <= b.maxIterations - 1 + n)
  }

  lemma CountMoves(s: System, step: Step)
    requires Enabled(s, step)
    ensures WorldAfter(s, step).goal.budget == s.world.goal.budget
    ensures WorldAfter(s, step).goal.iterationCount == s.world.goal.iterationCount + (if step.Begin? then 1 else 0)
  {
  }

  lemma NextOverrun(s: System, step: Step, b: Budget, n: nat)
    requires Overrun(s, b, n)
    ensures Overrun(Next(s, step), b, n)
  {
    if Enabled(s, step) {
      CountMoves(s, step);
      if EngineOf(step).Some? {
        GuardedBy(s.sessions, EngineOf(step).value, SessionAfter(s, step));
      }
    }
  }

  /** With n engines at once a goal never runs more than n - 1 iterations beyond max_iterations. */
  lemma {:induction false} OverrunIsBounded(b: Budget, n: nat, steps: seq<Step>)
    requires ValidBudget(b) && n >= 1
    ensures Overrun(Run(b, n, steps), b, n)
    ensures Run(b, n, steps).world.goal.iterationCount <= b.maxIterations - 1 + n
  {
    if steps != [] {
      OverrunIsBounded(b, n, steps[..|steps| - 1]);
      NextOverrun(Run(b, n, steps[..|steps| - 1]), steps[|steps| - 1], b, n);
    }
  }

  /** The goal is started, and each of the first m engines passes the iteration guard. */
  function GuardsPassed(m: nat): seq<Step> {
    if m == 0 then [StartGoal(0)] else GuardsPassed(m - 1) + [Guard(m - 1)]
  }

  /** After all n have, the first m of them begin an iteration each. */
  function AllBegin(n: nat, m: nat): seq<Step> {
    if m == 0 then GuardsPassed(n) else AllBegin(n, m - 1) + [Begin(m - 1)]
  }

  /** No iteration has begun but those of the first m engines, and the others may begin one. */
  predicate Poised(s: System, b: Budget, n: nat, begun: nat, guarded: nat) {
    && s.world.goal.budget == b && s.world.goal.state.Running? && |s.sessions| == n
    && s.world.goal.iterationCount == begun
    && forall e :: begun <= e < guarded && e < n ==> s.sessions[e].guarded
  }

  lemma OneMoreGuard(s: System, b: Budget, n: nat, m: nat)
    requires ValidBudget(b) && m < n && Poised(s, b, n, 0, m)
    ensures Poised(Next(s, Guard(m)), b, n, 0, m + 1)
  {
  }

  lemma OneMoreBegin(s: System, b: Budget, n: nat, m: nat)
    requires m < n && Poised(s, b, n, m, n)
    ensures Poised(Next(s, Begin(m)), b, n, m + 1, n)
  {
  }

  lemma GoalIsStarted(b: Budget, n: nat)
    ensures Poised(Run(b, n, [StartGoal(0)]), b, n, 0, 0)
  {
    assert [StartGoal(0)][..0] == [];
    assert Run(b, n, []) == Initial(b, n);
  }

  lemma {:induction false} GuardsPass(b: Budget, n: nat, m: nat)
    requires ValidBudget(b) && m <= n
    ensures Poised(Run(b, n, GuardsPassed(m)), b, n, 0, m)
  {
    if m == 0 {
      GoalIsStarted(b, n);
    } else {
      GuardsPass(b, n, m - 1);
      OneMoreGuard(Run(b, n, GuardsPassed(m - 1)), b, n, m - 1);
      assert GuardsPassed(m)[..|GuardsPassed(m)| - 1] == GuardsPassed(m - 1);
    }
  }

  lemma {:induction false} BeginsFollow(b: Budget, n: nat, m: nat)
    requires ValidBudget(b) && m <= n
    ensures Poised(Run(b, n, AllBegin(n, m)), b, n, m, n)
  {
    if m == 0 {
      GuardsPass(b, n, n);
    } else {
      BeginsFollow(b, n, m - 1);
      OneMoreBegin(Run(b, n, AllBegin(n, m - 1)), b, n, m - 1);
      assert AllBegin(n, m)[..|AllBegin(n, m)| - 1] == AllBegin(n, m - 1);
    }
  }

  /** The bound is reached: under a limit of one iteration, n engines at once begin n iterations. */
  lemma OverrunIsReached(b: Budget, n: nat) returns (steps: seq<Step>)
    requires ValidBudget(b) && b.maxIterations == 1
    ensures Run(b, n, steps).world.goal.iterationCount == b.maxIterations - 1 + n
  {
    steps := AllBegin(n, n);
    BeginsFollow(b, n, n);
  }
}
