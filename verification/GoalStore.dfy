/**
 The goal tables as the goal service and the iteration engine update them in place
 (src/project_supervisor/autonomy.py). Each method is one store transaction.
 */
module GoalStore {
  import opened Options
  import opened GoalRows

  class Store {
    var goal: Goal
    var steers: seq<Steer>
    var iterations: seq<Iteration>
    var events: seq<Event>

    function Contents(): World
      reads this
    {
      World(goal, steers, iterations, events)
    }

    /** create_goal. */
    constructor (budget: Budget)
      ensures Contents() == CreateGoal(budget)
    {
      goal := Goal(Created, None, None, None, None, budget, 0, 0, 0, 0, 0, None);
      steers, iterations, events := [], [], [GoalCreated];
    }

    method PauseGoal(mode: PauseMode, now: int) returns (ok: bool)
      modifies this
      ensures ok == !Refused(old(Contents()), Pause(mode))
      ensures Contents() == Controlled(old(Contents()), Pause(mode), now)
    {
      if Terminal(goal.state) { return false; }
      if goal.state == PausedState(mode) { return true; }
      goal := goal.(state := PausedState(mode), pauseMode := Some(mode));
      events := events + [GoalPaused(mode)];
      return true;
    }

    method ResumeGoal(now: int) returns (ok: bool)
      modifies this
      ensures ok == !Refused(old(Contents()), Resume)
      ensures Contents() == Controlled(old(Contents()), Resume, now)
    {
      if !Paused(goal.state) { return false; }
      goal := goal.(state := Running, pauseMode := None);
      if goal.startedAt.None? { goal := goal.(startedAt := Some(now)); }
      events := events + [GoalResumed];
      return true;
    }

    method SteerGoal(instruction: string, priority: Option<int>, now: int) returns (ok: bool)
      modifies this
      ensures ok == !Refused(old(Contents()), Steering(instruction, priority))
      ensures Contents() == Controlled(old(Contents()), Steering(instruction, priority), now)
    {
      if Blank(instruction) { return false; }
      if priority.Some? && !(0 <= priority.value <= 100) { return false; }
      if Terminal(goal.state) { return false; }
      var sequence := goal.steerVersion + 1;
      steers := steers + [Steer(sequence, instruction, priority)];
      goal := goal.(steerVersion := sequence);
      events := events + [GoalSteered(sequence, instruction)];
      return true;
    }

    method StopGoal(explanation: string, now: int) returns (ok: bool)
      modifies this
      ensures ok == !Refused(old(Contents()), Stop(explanation))
      ensures Contents() == Controlled(old(Contents()), Stop(explanation), now)
    {
      if Blank(explanation) || Terminal(goal.state) { return false; }
      goal := goal.(state := Stopped, pauseMode := None, reason := Some(UserStopped), finishedAt := Some(now));
      events := events + [GoalStopped];
      return true;
    }

    method Control(c: Control, now: int)
      modifies this
      ensures Contents() == Controlled(old(Contents()), c, now)
    {
      match c
      case Pause(mode) => var _ := PauseGoal(mode, now);
      case Resume => var _ := ResumeGoal(now);
      case Steering(instruction, priority) => var _ := SteerGoal(instruction, priority, now);
      case Stop(explanation) => var _ := StopGoal(explanation, now);
    }

    method ControlAll(cs: seq<Control>, now: int)
      modifies this
      ensures Contents() == ControlledAll(old(Contents()), cs, now)
    {
      for k := 0 to |cs|
        invariant Contents() == ControlledAll(old(Contents()), cs[..k], now)
      {
        Control(cs[k], now);
        assert cs[..k + 1][..k] == cs[..k];
      }
      assert cs[..|cs|] == cs;
    }

    method Start(now: int)
      modifies this
      ensures Contents() == Started(old(Contents()), now)
    {
      if !goal.state.Created? { return; }
      goal := goal.(state := Running, startedAt := Some(now));
      events := events + [GoalStarted];
    }

    method BeginIteration()
      modifies this
      ensures Contents() == Begun(old(Contents()))
    {
      var sequence := goal.iterationCount + 1;
      iterations := iterations + [Iteration(sequence, Evaluating, None, None, [], None)];
      goal := goal.(iterationCount := sequence);
      events := events + [IterationStarted(sequence)];
    }

    method SetPhase(i: nat, phase: Phase)
      requires i < |iterations|
      modifies this
      ensures Contents() == Reset(old(Contents()), i, phase)
    {
      iterations := iterations[i := iterations[i].(phase := phase)];
    }

    /** Inside every phase transaction: give the phase up if guidance is newer than it. */
    method InterruptStalePhase(i: nat, expected: int) returns (stale: bool)
      requires i < |iterations|
      modifies this
      ensures stale == Stale(old(Contents()), expected)
      ensures Contents() == Fenced(old(Contents()), i, expected)
    {
      if goal.steerVersion == expected { return false; }
      iterations := iterations[i := iterations[i].(phase := Interrupted)];
      events := events + [ReevaluationScheduled(iterations[i].sequence, expected, goal.steerVersion)];
      return true;
    }

    method RecordEvaluation(i: nat, e: Evaluation, version: nat) returns (ok: bool)
      requires i < |iterations|
      modifies this
      ensures ok == !Stale(old(Contents()), version)
      ensures Contents() == EvaluationRecorded(old(Contents()), i, e, version)
    {
      var stale := InterruptStalePhase(i, version);
      if stale { return false; }
      var count := 0;
      if goal.fingerprint == Some(e.fingerprint) { count := goal.noProgress + 1; }
      iterations := iterations[i := iterations[i].(evaluation := Some(Checkpoint(e, version, Some(version))))];
      goal := goal.(fingerprint := Some(e.fingerprint), noProgress := count);
      events := events + [Evaluated(iterations[i].sequence, e, version)];
      return true;
    }

    method RecordPlan(i: nat, keys: seq<string>, version: nat) returns (ok: bool)
      requires i < |iterations|
      modifies this
      ensures ok == !Stale(old(Contents()), version)
      ensures Contents() == PlanRecorded(old(Contents()), i, keys, version)
    {
      var stale := InterruptStalePhase(i, version);
      if stale { return false; }
      var actions: seq<Action> := [];
      for ordinal := 0 to |keys|
        invariant actions == PlannedActions(keys)[..ordinal]
      {
        actions := actions + [Action(keys[ordinal], Planned, false, None)];
      }
      assert actions == PlannedActions(keys);
      iterations := iterations[i := iterations[i].(phase := PlanReady, plan := Some(keys), actions := actions)];
      goal := goal.(taskCount := goal.taskCount + |keys|);
      events := events + [PlanCreated(iterations[i].sequence, keys, version)];
      return true;
    }

    method RecordVerification(i: nat, v: Verification, version: nat) returns (ok: bool)
      requires i < |iterations|
      modifies this
      ensures ok == !Stale(old(Contents()), version)
      ensures Contents() == VerificationRecorded(old(Contents()), i, v, version)
    {
      var stale := InterruptStalePhase(i, version);
      if stale { return false; }
      iterations := iterations[i := iterations[i].(verification := Some(Checkpoint(v, version, Some(version))))];
      events := events + [Verified(iterations[i].sequence, v, version)];
      return true;
    }

    method CompleteReplan(i: nat, v: Verification, failures: nat)
      requires i < |iterations|
      modifies this
      ensures Contents() == ReplanCompleted(old(Contents()), i, v, failures)
    {
      if goal.fingerprint != Some(v.fingerprint) { goal := goal.(noProgress := 0); }
      goal := goal.(fingerprint := Some(v.fingerprint), failureCount := goal.failureCount + failures);
      iterations := iterations[i := iterations[i].(phase := Replanning)];
      events := events + [ReplanRequired(iterations[i].sequence, v.fingerprint, failures)];
    }

    method TerminateGoal(reason: Reason, now: int)
      modifies this
      ensures Contents() == Ended(old(Contents()), reason, now)
    {
      if Terminal(goal.state) { return; }
      goal := goal.(state := Terminated, pauseMode := None, reason := Some(reason), finishedAt := Some(now));
      events := events + [GoalTerminated(reason)];
    }

    method TerminatePhaseIfCurrent(i: nat, reason: Reason, expected: int, now: int) returns (current: bool)
      requires i < |iterations|
      modifies this
      ensures current == !Stale(old(Contents()), expected)
      ensures Contents() == PhaseEnded(old(Contents()), i, reason, expected, now)
    {
      var stale := InterruptStalePhase(i, expected);
      if stale { return false; }
      if Terminal(goal.state) { return true; }
      goal := goal.(state := Terminated, pauseMode := None, reason := Some(reason), finishedAt := Some(now));
      iterations := iterations[i := iterations[i].(phase := Done)];
      events := events + [GoalTerminated(reason)];
      return true;
    }

    method SetAction(i: nat, a: nat, action: Action)
      requires i < |iterations| && a < |iterations[i].actions|
      modifies this
      ensures Contents() == ActionSet(old(Contents()), i, a, action)
    {
      var row := iterations[i];
      iterations := iterations[i := row.(actions := row.actions[a := action])];
      events := events + [ActionChanged(row.sequence, a, action.state)];
    }

    method NoteCancellation(i: nat, a: nat)
      requires i < |iterations|
      modifies this
      ensures Contents() == CancellationNoted(old(Contents()), i, a)
    {
      events := events + [CancellationRequested(iterations[i].sequence, a)];
    }
  }
}
