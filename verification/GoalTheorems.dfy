/**
 What holds of the rows of an autonomous goal at every moment of every run of the engine: the
 consequences of the invariant that GoalEngine maintains.
 */
module GoalTheorems {
  import opened Options
  import opened GoalRows
  import opened GoalJournal
  import opened GoalHistory
  import opened GoalInvariant
  import opened GoalSteps

  lemma {:induction false} SuccessIsOnRecord(b: Budget, es: seq<Event>, n: nat) returns (k: nat)
    requires n <= |es| && Read(b, es, n).reason == Some(Success)
    ensures k < n && es[k] == GoalTerminated(Success)
  {
    if es[n - 1] == GoalTerminated(Success) {
      k := n - 1;
    } else {
      k := SuccessIsOnRecord(b, es, n - 1);
    }
  }

  /** A goal whose reason is SUCCESS was ended by a satisfied verification whose context carried the
      steer version that the goal has to this day, and nobody steered after that verification. */
  lemma SuccessWasVerified(w: World) returns (j: nat)
    requires Inv(w) && w.goal.reason == Some(Success)
    ensures w.goal.state == Terminated
    ensures j < |w.events| && w.events[j].Verified? && w.events[j].verification.satisfied
    ensures w.events[j].basis == w.goal.steerVersion && NoSteerFrom(w.events, j)
  {
    var b := w.goal.budget;
    var k := SuccessIsOnRecord(b, w.events, |w.events|);
    j := SuccessIsCurrent(b, w.events, k);
    ReadCountsSteers(b, w.events, |w.events|);
  }

  /** A goal has a termination reason and a finish time exactly when it is stopped or terminated, and a
      pause mode exactly in the paused state of that mode; its steers are numbered 1..steer_version. */
  lemma LifecycleIsExact(w: World, i: nat)
    requires Inv(w)
    ensures Terminal(w.goal.state) <==> w.goal.reason.Some?
    ensures Terminal(w.goal.state) <==> w.goal.finishedAt.Some?
    ensures w.goal.state == Stopped ==> w.goal.reason == Some(UserStopped)
    ensures w.goal.pauseMode == Some(Soft) <==> w.goal.state == SoftPaused
    ensures w.goal.pauseMode == Some(Hard) <==> w.goal.state == HardPaused
    ensures |w.steers| == w.goal.steerVersion == SteersBefore(w.events, |w.events|)
    ensures i < |w.steers| ==> w.steers[i].sequence == i + 1
  {
    ReadCountsSteers(w.goal.budget, w.events, |w.events|);
  }

  /** The budgets hold, the iterations are numbered 1..iteration_count, the tasks counted are the
      action rows there are, and at most one iteration is active. */
  lemma CountersAreBounded(w: World, i: nat, j: nat)
    requires Inv(w)
    ensures |w.iterations| == w.goal.iterationCount <= w.goal.budget.maxIterations
    ensures ActionCount(w.iterations) == w.goal.taskCount <= w.goal.budget.maxTasks
    ensures i < |w.iterations| ==> w.iterations[i].sequence == i + 1
    ensures i < |w.iterations| && j < |w.iterations| && !Finished(w.iterations[i]) && !Finished(w.iterations[j]) ==>
        i == j
  {
    SummariesAreSound(w.goal.budget, w.events, |w.events|);
    if i < |w.iterations| {
      RowOf(w, i);
    }
  }

  /** no_progress_count is the number of evaluations, the first entry apart, in the longest suffix of
      the evaluations and replans on record in which the fingerprint never changes. */
  lemma NoProgressCountsTheSuffix(w: World, s: nat)
    requires Inv(w) && LongestConstantSuffix(Marks(w.events, |w.events|), s)
    ensures w.goal.noProgress == Evaluations(Marks(w.events, |w.events|), s + 1)
  {
    StreakCountsTheSuffix(w.goal.budget, w.events, |w.events|, s);
  }

  /** The last evaluation is incomplete and at the limit, and nobody has steered since. */
  predicate Stalled(w: World, j: nat, s: nat) {
    && j < |w.events| && AtLimit(w.goal.budget, w.events, j, s)
    && (forall m :: j <= m < |w.events| ==> !w.events[m].GoalSteered?)
  }

  /** A stalled goal that has ended was stopped by its user or terminated as NO_PROGRESS; one that has
      not ended still has the iteration of that evaluation active, so no other can begin. */
  lemma StalledGoalsEndInNoProgress(w: World, j: nat, s: nat)
    requires Inv(w) && Stalled(w, j, s)
    ensures w.goal.state.Terminated? ==> w.goal.reason == Some(NoProgress)
    ensures !Terminal(w.goal.state) ==>
      w.iterations != [] && !Finished(w.iterations[|w.iterations| - 1]) && w.iterations[|w.iterations| - 1].plan.None?
  {
    var b := w.goal.budget;
    StreakCountsTheSuffix(b, w.events, j + 1, s);
    assert Read(b, w.events, j + 1).stalled;
    StallLasts(b, w.events, j + 1, |w.events|);
    SummariesAreSound(b, w.events, |w.events|);
  }

  /** A goal whose first evaluation has just been recorded. */
  lemma FirstEvaluation(b: Budget) returns (w: World)
    requires ValidBudget(b)
    ensures Inv(w) && Active(w, 0) && w.goal.state == Running && w.goal.budget == b
    ensures w.goal.fingerprint == Some("f")
    ensures w.goal.steerVersion == 0 && w.goal.taskCount == 0 && w.goal.noProgress == 0 && w.goal.failureCount == 0
    ensures w.iterations[0] == Iteration(1, Evaluating, Some(Checkpoint(Evaluation(Incomplete, "f"), 0, Some(0))),
        None, [], None)
  {
    FreshGoalFits(b);
    StartKeepsInv(CreateGoal(b), 0);
    var started := Started(CreateGoal(b), 0);
    BeginKeepsInv(started);
    EvaluationKeepsInv(Begun(started), 0, Evaluation(Incomplete, "f"), 0);
    w := EvaluationRecorded(Begun(started), 0, Evaluation(Incomplete, "f"), 0);
  }

  /** A plan that answers an evaluation of older guidance: one steer between the two commits. */
  lemma PlansCanOutrunEvaluations(b: Budget) returns (w: World)
    requires ValidBudget(b)
    ensures Inv(w) && w.iterations != [] && w.iterations[0].plan.Some? && w.iterations[0].evaluation.Some?
    ensures w.iterations[0].evaluation.value.basis < w.goal.steerVersion
    ensures w.events != [] && w.events[|w.events| - 1] == PlanCreated(1, ["a"], w.goal.steerVersion)
  {
    var evaluated := FirstEvaluation(b);
    var steer := Steering("x", None);
    assert !Blank("x") by {
      assert "x"[0] == 'x';
    }
    ControlKeepsInv(evaluated, steer, 0);
    var steered := Controlled(evaluated, steer, 0);
    PlanKeepsInv(steered, 0, ["a"], 1);
    w := PlanRecorded(steered, 0, ["a"], 1);
  }

  /** Each moment of a run extends every earlier one: the ended goal keeps its state, reason, finish
      time and steer version, finished iterations keep every column, and history is only added to. */
  lemma EndedGoalsStayEnded(w: World, v: World, i: nat)
    requires Inv(w) && Inv(v) && Evolves(w, v) && Terminal(w.goal.state)
    ensures v.goal.state == w.goal.state && v.goal.reason == w.goal.reason && v.goal.reason.Some?
    ensures v.goal.finishedAt == w.goal.finishedAt && v.goal.finishedAt.Some? && v.steers == w.steers
    ensures i < |w.iterations| && Finished(w.iterations[i]) ==> v.iterations[i] == w.iterations[i]
  {
    assert i < |w.iterations| ==> RowEvolves(w.iterations[i], v.iterations[i]);
  }

  // A stalled store of an older build

  /** What the engine does with a reloaded evaluation that has no version: it interrupts the iteration,
      begins the next one and evaluates once more. */
  function EvaluatedAgain(w: World, i: nat, e: Evaluation): World
    requires i < |w.iterations|
  {
    EvaluationRecorded(Begun(Fenced(w, i, -1)), |w.iterations|, e, w.goal.steerVersion)
  }

  /** Nobody steers, and yet the stalled goal of an older store is evaluated once more: after a steer the
      version that its evaluation is fenced with is never current. */
  lemma StalledOlderStoresAreEvaluatedAgain(w: World, i: nat, e: Evaluation)
    requires Inv(w) && StalledOpen(w) && Active(w, i) && w.goal.steerVersion > 0
    ensures w.iterations[i].evaluation.Some?
    ensures RestoredVersion(Aged(w).iterations[i].evaluation.value, w.goal.steerVersion) == -1
    ensures EvaluatedAgain(Aged(w), i, e).events ==
      w.events + [ReevaluationScheduled(i + 1, -1, w.goal.steerVersion), IterationStarted(i + 2),
                  Evaluated(i + 2, e, w.goal.steerVersion)]
  {
    RowOf(w, i);
    var steer, row := w.goal.steerVersion, w.iterations[i];
    assert row.sequence == i + 1 == w.goal.iterationCount;
    var fenced := Fenced(Aged(w), i, -1);
    assert fenced.events == w.events + [ReevaluationScheduled(i + 1, -1, steer)];
    assert Begun(fenced).events == w.events + [ReevaluationScheduled(i + 1, -1, steer), IterationStarted(i + 2)];
  }

  /** A steer right after the first evaluation. */
  lemma FirstSteer(b: Budget) returns (w: World)
    requires ValidBudget(b)
    ensures Inv(w) && Active(w, 0) && w.goal.state == Running && w.goal.budget == b && !Told(w).stalled
    ensures w.goal.steerVersion == 1 && w.goal.failureCount == 0
    ensures w.goal.fingerprint == Some("f") && w.goal.noProgress == 0
  {
    var evaluated := FirstEvaluation(b);
    var steer := Steering("x", None);
    assert !Blank("x") by {
      assert "x"[0] == 'x';
    }
    ControlKeepsInv(evaluated, steer, 0);
    w := Controlled(evaluated, steer, 0);
    Heard(evaluated, w, ControlEvent(evaluated, steer));
  }

  lemma SecondIteration(b: Budget) returns (w: World)
    requires ValidBudget(b) && b.maxIterations >= 2
    ensures Inv(w) && w.goal.state == Running && w.goal.budget == b && w.goal.steerVersion == 1
    ensures w.goal.fingerprint == Some("f") && w.goal.noProgress == 0 && !Told(w).stalled
    ensures |w.iterations| == 2 && Active(w, 1) && w.iterations[1].evaluation.None?
  {
    var steered := FirstSteer(b);
    InterruptKeepsInv(steered, 0, 0);
    var interrupted := Interrupt(steered, 0, 0);
    BeginKeepsInv(interrupted);
    w := Begun(interrupted);
  }

  /** Such a goal exists: two evaluations with one fingerprint, the second after the only steer, under a
      no-progress limit of one. */
  lemma StalledStoresExist() returns (w: World)
    ensures Inv(w) && StalledOpen(w) && Active(w, 1) && w.goal.steerVersion > 0
  {
    var b, e := Budget(5, 5, 5, 1), Evaluation(Incomplete, "f");
    var begun := SecondIteration(b);
    EvaluationKeepsInv(begun, 1, e, 1);
    w := EvaluationRecorded(begun, 1, e, 1);
    RowOf(begun, 1);
    Heard(begun, w, Evaluated(2, e, 1));
  }
}
