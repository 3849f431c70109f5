/**
 The rows of one autonomous goal and the transactions on them
 (src/project_supervisor/autonomy.py): the human controls of the goal service and the atomic
 writes of the iteration engine.
 */
module GoalRows {
  import opened Options

  datatype GoalState = Created | Running | SoftPaused | HardPaused | Stopped | Terminated
  datatype PauseMode = Soft | Hard
  datatype Reason = Success | Blocked | NoProgress | IterationLimit | BudgetLimit | RepeatedFailure
                  | SafetyBoundary | PermissionRequired | HumanEscalation | UserStopped

  datatype Budget = Budget(maxIterations: int, maxTasks: int, maxFailures: int, noProgressLimit: int)

  predicate ValidBudget(b: Budget) {
    b.maxIterations >= 1 && b.maxTasks >= 1 && b.maxFailures >= 1 && b.noProgressLimit >= 1
  }

  datatype Goal = Goal(
    state: GoalState,
    pauseMode: Option<PauseMode>,
    reason: Option<Reason>,
    startedAt: Option<int>,
    finishedAt: Option<int>,
    budget: Budget,
    iterationCount: nat,
    noProgress: nat,
    taskCount: nat,
    failureCount: nat,
    steerVersion: nat,
    fingerprint: Option<string>)

  datatype Steer = Steer(sequence: nat, instruction: string, priority: Option<int>)

  datatype Disposition = Incomplete | Satisfied | Terminate(reason: Option<Reason>)
  datatype Evaluation = Evaluation(disposition: Disposition, fingerprint: string)
  datatype Verification = Verification(satisfied: bool, fingerprint: string, reason: Option<Reason>)

  /** What the constructor of an evaluation admits. */
  predicate ValidEvaluation(e: Evaluation) {
    e.disposition.Terminate? ==> e.disposition.reason.Some? && e.disposition.reason != Some(Success)
  }

  /** What the constructor of a verification admits. */
  predicate ValidVerification(v: Verification) {
    if v.satisfied then v.reason.None? || v.reason == Some(Success) else v.reason != Some(Success)
  }

  /** A decision kept in an iteration row. basis is the steer version of the context that the
      decision was computed from; recorded is the version stored beside it, which rows written by
      an older build lack. */
  datatype Checkpoint<T> = Checkpoint(value: T, basis: nat, recorded: Option<nat>)

  datatype ActionState = Planned | Dispatching | InFlight | Completed | Failed | Cancelled
  datatype Action = Action(key: string, state: ActionState, dispatched: bool, succeeded: Option<bool>)

  datatype Phase = Evaluating | PlanReady | Dispatch | Collect | Verifying | Replanning | Done | Interrupted
  datatype Iteration = Iteration(
    sequence: nat,
    phase: Phase,
    evaluation: Option<Checkpoint<Evaluation>>,
    plan: Option<seq<string>>,
    actions: seq<Action>,
    verification: Option<Checkpoint<Verification>>)

  /** The event journal. n is the sequence of the iteration that an event is about. */
  datatype Event =
    | GoalCreated
    | GoalStarted
    | GoalPaused(mode: PauseMode)
    | GoalResumed
    | GoalSteered(sequence: nat, instruction: string)
    | GoalStopped
    | GoalTerminated(reason: Reason)
    | IterationStarted(n: nat)
    | Evaluated(n: nat, evaluation: Evaluation, basis: nat)
    | PlanCreated(n: nat, keys: seq<string>, basis: nat)
    | Verified(n: nat, verification: Verification, basis: nat)
    | ReevaluationScheduled(n: nat, observed: int, current: nat)
    | ReplanRequired(n: nat, fingerprint: string, failedActions: nat)
    | ActionChanged(n: nat, ordinal: nat, state: ActionState)
    | CancellationRequested(n: nat, ordinal: nat)

  /** The events that the human controls journal. */
  predicate IsControl(e: Event) { e.GoalPaused? || e.GoalResumed? || e.GoalSteered? || e.GoalStopped? }

  predicate OnlyControls(es: seq<Event>, m: nat, n: nat)
    requires n <= |es|
  {
    forall k :: m <= k < n ==> IsControl(es[k])
  }

  datatype World = World(goal: Goal, steers: seq<Steer>, iterations: seq<Iteration>, events: seq<Event>)

  predicate Terminal(state: GoalState) { state.Stopped? || state.Terminated? }
  predicate Paused(state: GoalState) { state.SoftPaused? || state.HardPaused? }
  predicate Finished(row: Iteration) { row.phase.Done? || row.phase.Interrupted? }
  predicate Unsettled(a: Action) { a.state.Planned? || a.state.Dispatching? || a.state.InFlight? }

  /** autonomous_iterations WHERE state NOT IN ('completed','interrupted') ORDER BY sequence DESC LIMIT 1. */
  function ActiveIteration(rows: seq<Iteration>): Option<nat> {
    if rows == [] then None
    else if !Finished(rows[|rows| - 1]) then Some(|rows| - 1)
    else ActiveIteration(rows[..|rows| - 1])
  }

  /** The number of action rows of a goal. */
  function ActionCount(rows: seq<Iteration>): nat {
    if rows == [] then 0 else ActionCount(rows[..|rows| - 1]) + |rows[|rows| - 1].actions|
  }

  function CreateGoal(budget: Budget): World {
    World(Goal(Created, None, None, None, None, budget, 0, 0, 0, 0, 0, None), [], [], [GoalCreated])
  }

  // The human controls

  datatype Control =
    | Pause(mode: PauseMode)
    | Resume
    | Steering(instruction: string, priority: Option<int>)
    | Stop(explanation: string)

  predicate Blank(s: string) {
    forall i :: 0 <= i < |s| ==> s[i] in " \t\n\r\U{0B}\U{0C}"
  }

  function PausedState(mode: PauseMode): GoalState { if mode.Soft? then SoftPaused else HardPaused }

  /** The controls that raise, and so change nothing. */
  predicate Refused(w: World, c: Control) {
    match c
    case Pause(_) => Terminal(w.goal.state)
    case Resume => !Paused(w.goal.state)
    case Steering(instruction, priority) =>
      Blank(instruction) || (priority.Some? && !(0 <= priority.value <= 100)) || Terminal(w.goal.state)
    case Stop(explanation) => Blank(explanation) || Terminal(w.goal.state)
  }

  function Controlled(w: World, c: Control, now: int): World {
    if Refused(w, c) then w
    else
      match c
      case Pause(mode) =>
        if w.goal.state == PausedState(mode) then w
        else
          w.(goal := w.goal.(state := PausedState(mode), pauseMode := Some(mode)),
             events := w.events + [GoalPaused(mode)])
      case Resume =>
        w.(goal := w.goal.(state := Running, pauseMode := None,
                           startedAt := if w.goal.startedAt.Some? then w.goal.startedAt else Some(now)),
           events := w.events + [GoalResumed])
      case Steering(instruction, priority) =>
        w.(goal := w.goal.(steerVersion := w.goal.steerVersion + 1),
           steers := w.steers + [Steer(w.goal.steerVersion + 1, instruction, priority)],
           events := w.events + [GoalSteered(w.goal.steerVersion + 1, instruction)])
      case Stop(_) =>
        w.(goal := w.goal.(state := Stopped, pauseMode := None, reason := Some(UserStopped), finishedAt := Some(now)),
           events := w.events + [GoalStopped])
  }

  /** A batch of controls, in the order in which they reach the store. */
  function ControlledAll(w: World, cs: seq<Control>, now: int): World
    decreases |cs|
  {
    if cs == [] then w else Controlled(ControlledAll(w, cs[..|cs| - 1], now), cs[|cs| - 1], now)
  }

  // The engine's transactions

  function Started(w: World, now: int): World {
    if !w.goal.state.Created? then w
    else w.(goal := w.goal.(state := Running, startedAt := Some(now)), events := w.events + [GoalStarted])
  }

  function Begun(w: World): World {
    var n := w.goal.iterationCount + 1;
    w.(goal := w.goal.(iterationCount := n),
       iterations := w.iterations + [Iteration(n, Evaluating, None, None, [], None)],
       events := w.events + [IterationStarted(n)])
  }

  function Reset(w: World, i: nat, phase: Phase): World
    requires i < |w.iterations|
  {
    w.(iterations := w.iterations[i := w.iterations[i].(phase := phase)])
  }

  predicate Stale(w: World, expected: int) { w.goal.steerVersion != expected }

  /** The iteration row of a decision that newer guidance has overtaken. */
  function Interrupt(w: World, i: nat, expected: int): World
    requires i < |w.iterations|
  {
    var event := ReevaluationScheduled(w.iterations[i].sequence, expected, w.goal.steerVersion);
    Reset(w, i, Interrupted).(events := w.events + [event])
  }

  /** A transaction that only asks whether a phase is current, and interrupts it if not. */
  function Fenced(w: World, i: nat, expected: int): World
    requires i < |w.iterations|
  {
    if Stale(w, expected) then Interrupt(w, i, expected) else w
  }

  function EvaluationRecorded(w: World, i: nat, e: Evaluation, version: nat): World
    requires i < |w.iterations|
  {
    if Stale(w, version) then Interrupt(w, i, version)
    else
      var count := if w.goal.fingerprint == Some(e.fingerprint) then w.goal.noProgress + 1 else 0;
      World(w.goal.(fingerprint := Some(e.fingerprint), noProgress := count), w.steers,
            w.iterations[i := w.iterations[i].(evaluation := Some(Checkpoint(e, version, Some(version))))],
            w.events + [Evaluated(w.iterations[i].sequence, e, version)])
  }

  /** The action rows of a fresh plan, in plan order. */
  function PlannedActions(keys: seq<string>): (r: seq<Action>)
    ensures |r| == |keys|
  {
    seq(|keys|, k requires 0 <= k < |keys| => Action(keys[k], Planned, false, None))
  }

  predicate Distinct(keys: seq<string>) {
    forall j, k :: 0 <= j < k < |keys| ==> keys[j] != keys[k]
  }

  function PlanRecorded(w: World, i: nat, keys: seq<string>, version: nat): World
    requires i < |w.iterations|
  {
    if Stale(w, version) then Interrupt(w, i, version)
    else
      World(w.goal.(taskCount := w.goal.taskCount + |keys|), w.steers,
            w.iterations[i := w.iterations[i].(phase := PlanReady, plan := Some(keys),
                actions := PlannedActions(keys))],
            w.events + [PlanCreated(w.iterations[i].sequence, keys, version)])
  }

  function VerificationRecorded(w: World, i: nat, v: Verification, version: nat): World
    requires i < |w.iterations|
  {
    if Stale(w, version) then Interrupt(w, i, version)
    else
      w.(iterations := w.iterations[i := w.iterations[i].(verification := Some(Checkpoint(v, version, Some(version))))],
         events := w.events + [Verified(w.iterations[i].sequence, v, version)])
  }

  function ReplanCompleted(w: World, i: nat, v: Verification, failures: nat): World
    requires i < |w.iterations|
  {
    var count := if w.goal.fingerprint == Some(v.fingerprint) then w.goal.noProgress else 0;
    World(w.goal.(fingerprint := Some(v.fingerprint), noProgress := count,
                  failureCount := w.goal.failureCount + failures), w.steers,
          w.iterations[i := w.iterations[i].(phase := Replanning)],
          w.events + [ReplanRequired(w.iterations[i].sequence, v.fingerprint, failures)])
  }

  /** A termination that no phase decision is behind: a budget guard. */
  function Ended(w: World, reason: Reason, now: int): World {
    if Terminal(w.goal.state) then w
    else w.(goal := w.goal.(state := Terminated, pauseMode := None, reason := Some(reason), finishedAt := Some(now)),
            events := w.events + [GoalTerminated(reason)])
  }

  /** A termination decided by a phase, fenced by that phase's steer version. */
  function PhaseEnded(w: World, i: nat, reason: Reason, expected: int, now: int): World
    requires i < |w.iterations|
  {
    if Stale(w, expected) then Interrupt(w, i, expected)
    else if Terminal(w.goal.state) then w
    else Reset(Ended(w, reason, now), i, Done)
  }

  function ActionSet(w: World, i: nat, a: nat, action: Action): World
    requires i < |w.iterations| && a < |w.iterations[i].actions|
  {
    var row := w.iterations[i];
    w.(iterations := w.iterations[i := row.(actions := row.actions[a := action])],
       events := w.events + [ActionChanged(row.sequence, a, action.state)])
  }

  function CancellationNoted(w: World, i: nat, a: nat): World
    requires i < |w.iterations|
  {
    w.(events := w.events + [CancellationRequested(w.iterations[i].sequence, a)])
  }

  /** The actions whose result, or the lack of one, is not a success. */
  function Unsuccessful(actions: seq<Action>): nat {
    if actions == [] then 0
    else Unsuccessful(actions[..|actions| - 1]) + (if actions[|actions| - 1].succeeded == Some(true) then 0 else 1)
  }
}
