/**
 The failure counter of an autonomous goal over whole runs: what it adds up to, and exactly when it
 counts each failed action once.
 */
module GoalFailures {
  import opened Options
  import opened GoalRows
  import opened GoalJournal
  import opened GoalInvariant
  import opened GoalSteps
  import opened GoalTheorems

  /** What the replans among the first n events report, in total. */
  function ReportedFailures(es: seq<Event>, n: nat): nat
    requires n <= |es|
  {
    if n == 0 then 0
    else ReportedFailures(es, n - 1) + (if es[n - 1].ReplanRequired? then es[n - 1].failedActions else 0)
  }

  lemma {:induction false} ReadSumsFailures(b: Budget, es: seq<Event>, n: nat)
    requires n <= |es|
    ensures Read(b, es, n).failures == ReportedFailures(es, n)
  {
    if n > 0 {
      ReadSumsFailures(b, es, n - 1);
    }
  }

  /** The failure counter is the sum of what the replans report. */
  lemma FailuresAreThoseReported(w: World)
    requires Inv(w)
    ensures w.goal.failureCount == ReportedFailures(w.events, |w.events|)
  {
    ReadSumsFailures(w.goal.budget, w.events, |w.events|);
  }

  /** Every replan on record, however old, belongs to a verified iteration and reports exactly the
      actions of that iteration that have no successful result to this day. */
  lemma ReplanReportsTheFailures(w: World, k: nat)
    requires Inv(w) && k < |w.events| && w.events[k].ReplanRequired?
    ensures 1 <= w.events[k].n <= |w.iterations| && w.iterations[w.events[k].n - 1].verification.Some?
    ensures w.events[k].failedActions == Unsuccessful(w.iterations[w.events[k].n - 1].actions)
  {
    assert ReplanFits(w.iterations, w.events, k);
  }

  /** No iteration ever begins once the failures reported have reached max_failures. */
  lemma IterationsBeginBelowTheLimit(b: Budget, es: seq<Event>, k: nat)
    requires Journal(b, es) && k < |es| && es[k].IterationStarted?
    ensures ReportedFailures(es, k) < b.maxFailures
  {
    ReadSumsFailures(b, es, k);
    assert AllowedAt(b, es, k);
  }

  // Sums over the iterations

  /** How many of the first k events replan iteration n. */
  function ReplansOf(es: seq<Event>, n: nat, k: nat): nat
    requires k <= |es|
  {
    if k == 0 then 0
    else ReplansOf(es, n, k - 1) + (if es[k - 1].ReplanRequired? && es[k - 1].n == n then 1 else 0)
  }

  /** The unsuccessful actions of the first m iterations, each counted once for every replan of its
      iteration among the first k events. */
  function PerReplan(rows: seq<Iteration>, es: seq<Event>, k: nat, m: nat): nat
    requires k <= |es| && m <= |rows|
  {
    if m == 0 then 0
    else PerReplan(rows, es, k, m - 1) + ReplansOf(es, m, k) * Unsuccessful(rows[m - 1].actions)
  }

  /** The same, each counted once. */
  function PerIteration(rows: seq<Iteration>, es: seq<Event>, m: nat): nat
    requires m <= |rows|
  {
    if m == 0 then 0
    else PerIteration(rows, es, m - 1) + (if ReplansOf(es, m, |es|) > 0 then Unsuccessful(rows[m - 1].actions) else 0)
  }

  lemma {:induction false} NothingReplanned(rows: seq<Iteration>, es: seq<Event>, m: nat)
    requires m <= |rows|
    ensures PerReplan(rows, es, 0, m) == 0
  {
    if m > 0 {
      NothingReplanned(rows, es, m - 1);
    }
  }

  /** One more event adds the failures of the iteration that it replans, if it does. */
  lemma {:induction false} OneMoreEvent(rows: seq<Iteration>, es: seq<Event>, k: nat, m: nat)
    requires k < |es| && m <= |rows|
    ensures PerReplan(rows, es, k + 1, m) ==
      PerReplan(rows, es, k, m)
      + (if es[k].ReplanRequired? && 1 <= es[k].n <= m then Unsuccessful(rows[es[k].n - 1].actions) else 0)
  {
    if m > 0 {
      OneMoreEvent(rows, es, k, m - 1);
      var before, failures := ReplansOf(es, m, k), Unsuccessful(rows[m - 1].actions);
      assert (before + 1) * failures == before * failures + failures;
    }
  }

  lemma {:induction false} ReportsAddUp(w: World, k: nat)
    requires Replans(w) && k <= |w.events|
    ensures ReportedFailures(w.events, k) == PerReplan(w.iterations, w.events, k, |w.iterations|)
  {
    if k == 0 {
      NothingReplanned(w.iterations, w.events, |w.iterations|);
    } else {
      ReportsAddUp(w, k - 1);
      OneMoreEvent(w.iterations, w.events, k - 1, |w.iterations|);
      assert ReplanFits(w.iterations, w.events, k - 1);
    }
  }

  /** At every moment of every run the failure counter is the number of unsuccessful actions of each
      iteration times the number of its replans. */
  lemma FailuresAreCountedPerReplan(w: World)
    requires Inv(w)
    ensures w.goal.failureCount == PerReplan(w.iterations, w.events, |w.events|, |w.iterations|)
  {
    FailuresAreThoseReported(w);
    ReportsAddUp(w, |w.events|);
  }

  // Counting once

  /** Iteration i, if it has unsuccessful actions, was not replanned twice. */
  predicate ReplannedOnce(rows: seq<Iteration>, es: seq<Event>, i: nat)
    requires i < |rows|
  {
    Unsuccessful(rows[i].actions) > 0 ==> ReplansOf(es, i + 1, |es|) <= 1
  }

  lemma OneTerm(replans: nat, failures: nat)
    ensures replans * failures >= (if replans > 0 then failures else 0)
    ensures replans * failures == (if replans > 0 then failures else 0) <==> failures == 0 || replans <= 1
  {
    if replans > 1 && failures > 0 {
      assert replans * failures == failures + (replans - 1) * failures;
      assert (replans - 1) * failures >= 1;
    }
  }

  lemma {:induction false} OnceExactly(rows: seq<Iteration>, es: seq<Event>, m: nat)
    requires m <= |rows|
    ensures PerReplan(rows, es, |es|, m) >= PerIteration(rows, es, m)
    ensures PerReplan(rows, es, |es|, m) == PerIteration(rows, es, m) <==>
        forall i :: 0 <= i < m ==> ReplannedOnce(rows, es, i)
  {
    if m > 0 {
      OnceExactly(rows, es, m - 1);
      OneTerm(ReplansOf(es, m, |es|), Unsuccessful(rows[m - 1].actions));
      assert ReplannedOnce(rows, es, m - 1) <==> Unsuccessful(rows[m - 1].actions) == 0 || ReplansOf(es, m, |es|) <= 1;
    }
  }

  /** The failure counter never misses a failed action of a replanned iteration, and it counts each of
      them once if and only if no iteration with failed actions was replanned twice. */
  lemma FailuresAreCountedOnceExactly(w: World)
    requires Inv(w)
    ensures w.goal.failureCount >= PerIteration(w.iterations, w.events, |w.iterations|)
    ensures w.goal.failureCount == PerIteration(w.iterations, w.events, |w.iterations|) <==>
            forall i :: 0 <= i < |w.iterations| ==> ReplannedOnce(w.iterations, w.events, i)
  {
    FailuresAreCountedPerReplan(w);
    OnceExactly(w.iterations, w.events, |w.iterations|);
  }

  // Restarts

  /** A process replans the iteration and dies before it ends it, again and again: each next process
      marks the iteration as dispatching and replans it. */
  function Restarted(w: World, i: nat, v: Verification, failures: nat, times: nat): (r: World)
    requires i < |w.iterations|
    ensures |r.iterations| == |w.iterations|
  {
    if times == 0 then w
    else ReplanCompleted(Reset(Restarted(w, i, v, failures, times - 1), i, Dispatch), i, v, failures)
  }

  predicate Replannable(w: World, i: nat, v: Verification, failures: nat) {
    && Active(w, i) && w.iterations[i].verification.Some? && w.iterations[i].verification.value.value == v && Unmet(v)
    && failures == Unsuccessful(w.iterations[i].actions)
  }

  lemma {:induction false} RestartsKeepInv(w: World, i: nat, v: Verification, failures: nat, times: nat)
    requires Inv(w) && Replannable(w, i, v, failures)
    ensures Inv(Restarted(w, i, v, failures, times)) && Replannable(Restarted(w, i, v, failures, times), i, v, failures)
  {
    if times > 0 {
      RestartsKeepInv(w, i, v, failures, times - 1);
      var before := Restarted(w, i, v, failures, times - 1);
      PhaseKeepsInv(before, i, Dispatch);
      ReplanKeepsInv(Reset(before, i, Dispatch), i, failures);
    }
  }

  lemma {:induction false} RestartedGoal(w: World, i: nat, v: Verification, failures: nat, times: nat)
    requires i < |w.iterations| && times >= 1
    ensures var once, r := Restarted(w, i, v, failures, 1), Restarted(w, i, v, failures, times);
            r.goal == once.goal.(failureCount := w.goal.failureCount + times * failures)
            && r.goal.fingerprint == Some(v.fingerprint)
  {
    if times == 1 {
      assert Restarted(w, i, v, failures, 0) == w;
    } else {
      RestartedGoal(w, i, v, failures, times - 1);
      assert (times - 1) * failures + failures == times * failures;
    }
  }

  /** Nothing that the engine keeps stands in the way of any number of restarts in that window, and each
      repeats the addition to the failure counter and nothing else in the goal row. */
  lemma RestartedReplan(w: World, i: nat, v: Verification, failures: nat, times: nat)
    requires Inv(w) && Replannable(w, i, v, failures) && times >= 1
    ensures var once, r := Restarted(w, i, v, failures, 1), Restarted(w, i, v, failures, times);
            Inv(r) && r.goal == once.goal.(failureCount := w.goal.failureCount + times * failures)
  {
    RestartsKeepInv(w, i, v, failures, times);
    RestartedGoal(w, i, v, failures, times);
  }

  /** A goal whose only action is being dispatched. */
  lemma OneDispatchedAction(b: Budget) returns (w: World)
    requires ValidBudget(b)
    ensures Inv(w) && Active(w, 0) && w.goal.failureCount == 0 && w.goal.steerVersion == 0
    ensures w.iterations[0].actions == [Action("a", Dispatching, false, None)]
    ensures w.iterations[0].verification.None? && w.iterations[0].plan.Some? && w.iterations[0].evaluation.Some?
  {
    var evaluated := FirstEvaluation(b);
    PlanKeepsInv(evaluated, 0, ["a"], 0);
    var planned := PlanRecorded(evaluated, 0, ["a"], 0);
    PhaseKeepsInv(planned, 0, Dispatch);
    var entered := Reset(planned, 0, Dispatch);
    ActionKeepsInv(entered, 0, 0, Action("a", Dispatching, false, None));
    w := ActionSet(entered, 0, 0, Action("a", Dispatching, false, None));
  }

  /** A goal whose only action has failed: the dispatcher raised, and the verification has begun. */
  lemma OneFailedAction(b: Budget) returns (w: World)
    requires ValidBudget(b)
    ensures Inv(w) && Active(w, 0) && w.goal.failureCount == 0 && w.goal.steerVersion == 0
    ensures w.iterations[0].actions == [Action("a", Failed, false, None)] && w.iterations[0].phase == Verifying
    ensures w.iterations[0].verification.None? && w.iterations[0].plan.Some? && w.iterations[0].evaluation.Some?
  {
    var dispatched := OneDispatchedAction(b);
    ActionKeepsInv(dispatched, 0, 0, Action("a", Failed, false, None));
    var failed := ActionSet(dispatched, 0, 0, Action("a", Failed, false, None));
    PhaseKeepsInv(failed, 0, Verifying);
    w := Reset(failed, 0, Verifying);
  }

  /** And whose verification then asks for a new plan. */
  lemma OneFailedIteration(b: Budget) returns (w: World)
    requires ValidBudget(b)
    ensures Inv(w) && |w.iterations| == 1 && w.goal.failureCount == 0
    ensures Replannable(w, 0, Verification(false, "f", None), 1)
  {
    var failed := OneFailedAction(b);
    assert Unsuccessful(failed.iterations[0].actions) == 1;
    VerificationKeepsInv(failed, 0, Verification(false, "f", None), 0);
    w := VerificationRecorded(failed, 0, Verification(false, "f", None), 0);
  }

  /** One failed action that the counter counts as often as the process died in that window. */
  lemma FailuresCanCountTwice(b: Budget, times: nat) returns (w: World)
    requires ValidBudget(b) && times >= 2
    ensures Inv(w) && |w.iterations| == 1 && Unsuccessful(w.iterations[0].actions) == 1
    ensures w.goal.failureCount == times > PerIteration(w.iterations, w.events, 1)
  {
    var start := OneFailedIteration(b);
    var v := Verification(false, "f", None);
    RestartsKeepInv(start, 0, v, 1, times);
    RestartedGoal(start, 0, v, 1, times);
    w := Restarted(start, 0, v, 1, times);
    assert PerIteration(w.iterations, w.events, 0) == 0;
  }
}
