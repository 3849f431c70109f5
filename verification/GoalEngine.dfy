/**
 The iteration engine as it is written (src/project_supervisor/autonomy.py), run against everything
 that may happen around it: human controls before any store access, any answer of the evaluator,
 planner, dispatcher and verifier, and the death of the process at any store access.
 */
module GoalEngine {
  import opened Options
  import opened GoalRows
  import opened GoalJournal
  import opened GoalInvariant
  import opened GoalSteps
  import opened GoalStore

  datatype Collected = Raised | Returned(succeeded: bool, cancelled: bool)

  /** What happens around the engine, by the number of store accesses so far: the controls that come
      first, the clock, and what whoever is asked answers. */
  datatype Environment = Environment(
    controls: nat -> seq<Control>,
    now: nat -> int,
    evaluate: nat -> Evaluation,
    plan: nat -> seq<string>,
    verify: nat -> Verification,
    dispatch: nat -> bool,
    collect: (nat, nat) -> Option<Collected>,
    overspent: nat -> bool,
    idle: nat -> bool)

  /** Nobody interferes, and whoever is asked answers as the constructors of the answers demand. */
  ghost predicate Calm(env: Environment) {
    && (forall t :: env.controls(t) == [])
    && (forall t :: ValidEvaluation(env.evaluate(t)))
    && (forall t :: ValidVerification(env.verify(t)))
    && (forall t :: Distinct(env.plan(t)))
  }

  predicate Unhampered(state: GoalState) { !Paused(state) && !state.Stopped? }

  /** From moment t on, moreover, every action has finished and the goal's own tasks are idle. */
  ghost predicate Quiet(env: Environment, t: nat) {
    Calm(env) && (forall u, a :: t <= u ==> env.collect(u, a).Some?) && (forall u :: t <= u ==> env.idle(u))
  }

  /** The store accesses that one round of a goal takes at most once the surroundings are quiet. */
  function RoundCost(b: Budget): int { 38 + 7 * b.maxTasks }

  /** And those of all its rounds. */
  function Enough(b: Budget): int { RoundCost(b) * (b.maxIterations + 2) }

  lemma RoundsAddUp(cost: nat, n: nat, m: nat)
    ensures n < m ==> cost * n + cost <= cost * m
  {
    if n < m {
      assert cost * m == cost * n + cost * (m - n);
      assert cost * (m - n) == cost + cost * (m - n - 1);
    }
  }

  /** What the rounds so far have taken at most, the last one included if it ended the loop. */
  ghost predicate PaidFor(b: Budget, taken: int, rounds: int, going: bool) {
    && 0 <= rounds < b.maxIterations + 2
    && taken <= (if going then RoundCost(b) * rounds else Enough(b))
  }

  lemma NextRound(b: Budget, taken: int, rounds: int, after: int, next: int, going: bool)
    requires ValidBudget(b) && PaidFor(b, taken, rounds, true) && 0 <= next < b.maxIterations + 2
    ensures after <= taken + RoundCost(b) && (going ==> after <= 0 || next > rounds) ==> PaidFor(b, after, next, going)
  {
    RoundsAddUp(RoundCost(b), rounds, next);
    RoundsAddUp(RoundCost(b), rounds, b.maxIterations + 2);
  }

  lemma NotCreated(w: World)
    requires Inv(w)
    ensures w.iterations != [] ==> !w.goal.state.Created?
  {
  }

  lemma RowsWithinBudget(w: World)
    requires Inv(w)
    ensures |w.iterations| <= w.goal.budget.maxIterations && ValidBudget(w.goal.budget)
  {
    SummariesAreSound(w.goal.budget, w.events, |w.events|);
  }

  /** The budget guard of an iteration; overspent stands for the clock, token and cost budgets. */
  function BudgetGuard(g: Goal, overspent: bool): (r: Option<Reason>)
    ensures r.None? ==> g.iterationCount < g.budget.maxIterations && g.taskCount < g.budget.maxTasks
    ensures r.None? ==> g.failureCount < g.budget.maxFailures && !overspent
    ensures r != Some(Success)
  {
    if g.iterationCount >= g.budget.maxIterations then Some(IterationLimit)
    else if g.taskCount >= g.budget.maxTasks then Some(BudgetLimit)
    else if g.failureCount >= g.budget.maxFailures then Some(RepeatedFailure)
    else if overspent then Some(BudgetLimit)
    else None
  }

  /** A look at moment t found no task and no worker run of the goal alive, and nothing but controls was
      journalled between that look and the SUCCESS at position k. accesses[t - 1] is the length of the
      journal at moment t. */
  ghost predicate IdleLook(env: Environment, accesses: seq<nat>, es: seq<Event>, t: nat, k: nat) {
    && 1 <= t <= |accesses| && env.idle(t)
    && accesses[t - 1] <= k < |es| && es[k] == GoalTerminated(Success) && OnlyControls(es, accesses[t - 1], k)
  }

  ghost predicate SuccessLooked(env: Environment, accesses: seq<nat>, es: seq<Event>) {
    exists t: nat, k: nat :: IdleLook(env, accesses, es, t, k)
  }

  lemma LookStays(env: Environment, accesses: seq<nat>, later: seq<nat>, es: seq<Event>, longer: seq<Event>)
    requires accesses <= later && es <= longer
    ensures SuccessLooked(env, accesses, es) ==> SuccessLooked(env, later, longer)
  {
    if t: nat, k: nat :| IdleLook(env, accesses, es, t, k) {
      assert IdleLook(env, later, longer, t, k);
    }
  }

  /** What a transaction carries over. */
  lemma Carried(origin: World, w: World, v: World, env: Environment, accesses: seq<nat>)
    requires Evolves(origin, w) && Evolves(w, v)
    ensures Evolves(origin, v)
    ensures SuccessLooked(env, accesses, w.events) ==> SuccessLooked(env, accesses, v.events)
  {
    EvolvesTwice(origin, w, v);
    LookStays(env, accesses, accesses, w.events, v.events);
  }

  /** A look at moment t found the goal idle, and since then only controls were journalled. */
  predicate IdleSince(env: Environment, accesses: seq<nat>, es: seq<Event>, t: int) {
    1 <= t <= |accesses| && env.idle(t) && accesses[t - 1] <= |es| && OnlyControls(es, accesses[t - 1], |es|)
  }

  lemma IdleSinceStays(env: Environment, accesses: seq<nat>, es: seq<Event>, longer: seq<Event>, n: nat, t: int)
    ensures IdleSince(env, accesses, es, t) && es <= longer && OnlyControls(longer, |es|, |longer|) ==>
      IdleSince(env, accesses + [n], longer, t)
  {
  }

  /** A phase that ends the goal in SUCCESS after such a look. */
  lemma SuccessIsLooked(
      env: Environment, accesses: seq<nat>, w: World, i: nat, reason: Reason, expected: int, now: int, t: int)
    requires i < |w.iterations|
    ensures (reason.Success? ==> IdleSince(env, accesses, w.events, t))
            && PhaseEnded(w, i, reason, expected, now).goal.reason == Some(Success) && w.goal.reason != Some(Success)
            ==> SuccessLooked(env, accesses, PhaseEnded(w, i, reason, expected, now).events)
  {
    var v := PhaseEnded(w, i, reason, expected, now);
    if v.goal.reason == Some(Success) && w.goal.reason != Some(Success) && IdleSince(env, accesses, w.events, t) {
      assert v.events == w.events + [GoalTerminated(Success)];
      assert IdleLook(env, accesses, v.events, t, |w.events|);
    }
  }

  /** An action that the dispatcher has yet to be offered. */
  predicate Waiting(a: Action) { a.state.Planned? || a.state.Dispatching? }

  ghost predicate OfferedBelow(actions: seq<Action>, n: nat)
    requires n <= |actions|
  {
    forall a :: 0 <= a < n ==> !Waiting(actions[a])
  }

  lemma OneMoreOffered(before: seq<Action>, after: seq<Action>, a: nat)
    requires a < |before| == |after| && OfferedBelow(before, a) && !Waiting(after[a])
    requires forall c :: 0 <= c < a ==> after[c] == before[c]
    ensures OfferedBelow(after, a + 1)
  {
  }

  /** Settled actions are as they were, and none that the dispatcher was offered waits for it again. */
  ghost predicate ActionsAdvance(before: seq<Action>, after: seq<Action>) {
    && |after| == |before|
    && forall a :: 0 <= a < |before| ==>
         && (!Unsettled(before[a]) ==> after[a] == before[a])
         && (!Waiting(before[a]) ==> !Waiting(after[a]))
  }

  /** Of the first n actions, pending holds exactly those in flight. */
  ghost predicate InFlightBelow(actions: seq<Action>, n: nat, pending: set<nat>)
    requires n <= |actions|
  {
    && (forall a :: a in pending ==> a < n && actions[a].state.InFlight?)
    && (forall a :: 0 <= a < n && actions[a].state.InFlight? ==> a in pending)
  }

  function With(pending: set<nat>, a: nat, running: bool): set<nat> { if running then pending + {a} else pending }

  lemma OneMoreAction(before: seq<Action>, after: seq<Action>, a: nat, pending: set<nat>)
    requires a < |before| == |after| && InFlightBelow(before, a, pending)
    requires forall c :: 0 <= c < a ==> after[c] == before[c]
    ensures InFlightBelow(after, a + 1, With(pending, a, after[a].state.InFlight?))
  {
  }

  /** What such a phase carries over. */
  lemma CarriedToTheEnd(
      origin: World, env: Environment, accesses: seq<nat>, w: World, i: nat, reason: Reason, expected: int, now: int,
      t: int)
    requires i < |w.iterations| && Evolves(origin, w) && Evolves(w, PhaseEnded(w, i, reason, expected, now))
    requires reason.Success? ==> IdleSince(env, accesses, w.events, t)
    ensures var v := PhaseEnded(w, i, reason, expected, now);
            && Evolves(origin, v)
            && (v.goal.reason == Some(Success) ==>
                  || (w.goal.reason == Some(Success) && !SuccessLooked(env, accesses, w.events))
                  || SuccessLooked(env, accesses, v.events))
  {
    SuccessIsLooked(env, accesses, w, i, reason, expected, now, t);
    Carried(origin, w, PhaseEnded(w, i, reason, expected, now), env, accesses);
  }

  lemma FencedEndKeepsInv(w: World, i: nat, reason: Reason, expected: int, now: int)
    requires Inv(w) && Active(w, i) && expected <= w.goal.steerVersion && MayEnd(w, i, reason, expected)
    requires w.iterations[i].evaluation.Some?
    requires FencedBy(w.iterations[i].evaluation.value, expected) || !Told(w).stalled
    ensures var v := PhaseEnded(w, i, reason, expected, now);
            && Steps(w, v) && |v.iterations| == i + 1 && (Finished(v.iterations[i]) || Terminal(v.goal.state))
            && (Told(v).stalled ==> Terminal(v.goal.state))
  {
    if Told(w).stalled && Stale(w, expected) { StaleIsNotStalled(w, i, expected); }
    PhaseEndKeepsInv(w, i, reason, expected, now);
  }

  class Engine {
    const store: Store
    const env: Environment
    /** Any earlier moment of the same goal. */
    ghost const origin: World
    /** The moment, if there is one, from which on the surroundings are quiet. */
    ghost const quiet: nat
    /** How many store accesses are left before the process dies. */
    var life: nat
    var tick: nat
    /** How long the journal was at each store access so far, the controls before it included. */
    ghost var accesses: seq<nat>
    /** How many of the store accesses came after that moment. */
    ghost var late: nat

    constructor (store: Store, env: Environment, ghost origin: World, ghost quiet: nat)
      ensures this.store == store && this.env == env && this.origin == origin && this.quiet == quiet && life == 0
      ensures tick == 0 && accesses == [] && late == 0
    {
      this.store, this.env, this.origin, this.quiet := store, env, origin, quiet;
      life, tick, accesses, late := 0, 0, [], 0;
    }

    /** The judgement on the goal as the engine leaves it at each store access. */
    ghost function Condition(): Standing
      reads this, store
    {
      if Inv(store.Contents()) && Evolves(origin, store.Contents()) && SuccessWasIdle() && StaysUnpaused() then Intact
      else Damaged
    }

    ghost predicate Valid()
      reads this, store
    {
      Condition() == Intact
    }

    /** In calm nobody pauses or stops the goal. */
    ghost predicate StaysUnpaused()
      reads this, store
    {
      Calm(env) && Unhampered(origin.goal.state) ==> Unhampered(store.goal.state)
    }

    /** Every SUCCESS that is new since the origin was preceded by a look that found the goal's own tasks
        idle, with nothing but controls between the two. */
    ghost predicate SuccessWasIdle()
      reads this, store
    {
      && |accesses| == tick && late == (if tick > quiet then tick - quiet else 0)
      && (store.goal.reason == Some(Success) && origin.goal.reason != Some(Success) ==>
            SuccessLooked(env, accesses, store.events))
    }

    /** The present store access is such a look, and nothing has been journalled since. */
    ghost predicate LooksIdle()
      reads this, store
    {
      IdleSince(env, accesses, store.events, tick)
    }

    ghost function Clock(): (nat, nat, nat)
      reads this
    {
      (tick, life, late)
    }

    /** Every store access since then took one unit of life, and at most k of them came late. */
    ghost predicate Took(began: (nat, nat, nat), k: int)
      reads this
    {
      && tick + life == began.0 + began.1 && began.0 <= tick
      && (Quiet(env, quiet) ==> late <= began.2 + k)
    }

    /** In calm a process stops only at the end of its life. */
    ghost predicate Spared(alive: bool)
      reads this
    {
      alive || life == 0 || !Calm(env)
    }

    /** The iteration is finished, or the goal is over. */
    ghost predicate Concluded(i: nat)
      reads store
    {
      i == |store.iterations| - 1 && (Finished(store.iterations[i]) || Terminal(store.goal.state))
    }

    /** The iteration is finished, or the goal is not running. */
    ghost predicate Closed(i: nat)
      reads store
    {
      i == |store.iterations| - 1 && (Finished(store.iterations[i]) || !store.goal.state.Running?)
    }

    ghost predicate Working(i: nat)
      reads this, store
    {
      Valid() && Active(store.Contents(), i)
    }

    /** A stalled goal has ended. */
    ghost predicate Conclusive()
      reads this, store
    {
      Told(store.Contents()).stalled ==> Terminal(store.goal.state)
    }

    /** Every store access: the controls of others come first, or the process is dead. */
    method Reach() returns (alive: bool)
      requires Valid()
      modifies this, store
      ensures Valid() && Undisturbed(old(store.Contents()), store.Contents())
      ensures old(store.events) <= store.events && OnlyControls(store.events, |old(store.events)|, |store.events|)
      ensures Took(old(Clock()), 1) && (alive ==> life < old(life)) && (!alive ==> tick == old(tick))
      ensures alive ==> tick == old(tick) + 1 && accesses == old(accesses) + [|store.events|]
      ensures !alive ==> life == 0
      ensures Calm(env) ==> store.Contents() == old(store.Contents())
    {
      RelySelf(store.Contents());
      if life == 0 { return false; }
      life, tick := life - 1, tick + 1;
      ghost var before := store.Contents();
      store.ControlAll(env.controls(tick), env.now(tick));
      ControlsKeepInv(before, env.controls(tick), env.now(tick));
      EvolvesTwice(origin, before, store.Contents());
      LookStays(env, accesses, accesses + [|store.events|], before.events, store.events);
      accesses := accesses + [|store.events|];
      if tick > quiet { late := late + 1; }
      return true;
    }

    // Store accesses that write

    method EnterPhase(i: nat, phase: Phase) returns (alive: bool)
      requires Working(i) && (phase.Done? || phase.Interrupted? ==> Conclusive())
      modifies this, store
      ensures Valid() && Took(old(Clock()), 1) && Spared(alive) && (alive ==> life < old(life))
      ensures alive ==> |store.iterations| == i + 1 && store.iterations[i] == old(store.iterations[i]).(phase := phase)
      ensures alive && !phase.Done? && !phase.Interrupted? ==> Working(i)
      ensures old(Conclusive()) ==> Conclusive()
      ensures Calm(env) ==> store.goal == old(store.goal)
    {
      alive := Reach();
      if !alive { return; }
      ghost var w := store.Contents();
      PhaseKeepsInv(w, i, phase);
      store.SetPhase(i, phase);
      Carried(origin, w, store.Contents(), env, accesses);
    }

    /** _phase_is_current. */
    method PhaseIsCurrent(i: nat, expected: int) returns (alive: bool, current: bool)
      requires Working(i) && expected <= store.goal.steerVersion
      requires store.iterations[i].evaluation.Some?
      requires FencedBy(store.iterations[i].evaluation.value, expected) || !Told(store.Contents()).stalled
      modifies this, store
      ensures Valid() && Took(old(Clock()), 1) && Spared(alive)
      ensures alive && current ==>
        Working(i) && store.iterations == old(store.iterations) && store.goal.steerVersion == expected
      ensures alive && !current ==> Conclusive() && Concluded(i)
      ensures !old(Told(store.Contents()).stalled) ==> !Told(store.Contents()).stalled
    {
      alive := Reach();
      if !alive { return false, false; }
      current := CommitFence(i, expected);
    }

    method CommitFence(i: nat, expected: int) returns (current: bool)
      requires Working(i) && expected <= store.goal.steerVersion
      requires store.iterations[i].evaluation.Some?
      requires FencedBy(store.iterations[i].evaluation.value, expected) || !Told(store.Contents()).stalled
      modifies store
      ensures Valid()
      ensures current ==> store.Contents() == old(store.Contents()) && store.goal.steerVersion == expected
      ensures !current ==> Conclusive() && Concluded(i) && Told(store.Contents()) == old(Told(store.Contents()))
    {
      ghost var w := store.Contents();
      if Stale(w, expected) {
        if Told(w).stalled { StaleIsNotStalled(w, i, expected); }
        InterruptKeepsInv(w, i, expected);
      }
      var stale := store.InterruptStalePhase(i, expected);
      Carried(origin, w, store.Contents(), env, accesses);
      current := !stale;
    }

    /** _terminate_phase_if_current. */
    method EndPhase(i: nat, reason: Reason, expected: int) returns (alive: bool)
      requires Working(i) && expected <= store.goal.steerVersion && MayEnd(store.Contents(), i, reason, expected)
      requires store.iterations[i].evaluation.Some? && (reason.Success? ==> LooksIdle())
      requires FencedBy(store.iterations[i].evaluation.value, expected) || !Told(store.Contents()).stalled
      modifies this, store
      ensures Valid() && Took(old(Clock()), 1) && Spared(alive)
      ensures alive ==> Conclusive() && Concluded(i)
    {
      ghost var look, before := tick, store.events;
      alive := Reach();
      if !alive { return; }
      IdleSinceStays(env, old(accesses), before, store.events, |store.events|, look);
      CommitEnd(i, reason, expected, look);
    }

    method CommitEnd(i: nat, reason: Reason, expected: int, ghost look: nat)
      requires Working(i) && expected <= store.goal.steerVersion && MayEnd(store.Contents(), i, reason, expected)
      requires store.iterations[i].evaluation.Some?
      requires reason.Success? ==> IdleSince(env, accesses, store.events, look)
      requires FencedBy(store.iterations[i].evaluation.value, expected) || !Told(store.Contents()).stalled
      modifies store
      ensures Valid() && Conclusive() && Concluded(i)
    {
      ghost var w := store.Contents();
      FencedEndKeepsInv(w, i, reason, expected, env.now(tick));
      CarriedToTheEnd(origin, env, accesses, w, i, reason, expected, env.now(tick), look);
      var _ := store.TerminatePhaseIfCurrent(i, reason, expected, env.now(tick));
    }

    method ChangeAction(i: nat, a: nat, action: Action) returns (alive: bool)
      requires Working(i) && a < |store.iterations[i].actions| && Unsettled(store.iterations[i].actions[a])
      modifies this, store
      ensures Valid() && Took(old(Clock()), 1) && Spared(alive) && (alive ==> life < old(life))
      ensures alive ==>
        && Working(i)
        && store.iterations[i] == old(store.iterations[i]).(actions := old(store.iterations[i].actions)[a := action])
      ensures Calm(env) ==> store.goal == old(store.goal)
    {
      alive := Reach();
      if !alive { return; }
      ghost var w := store.Contents();
      RowOf(w, i);
      ActionKeepsInv(w, i, a, action);
      store.SetAction(i, a, action);
      Carried(origin, w, store.Contents(), env, accesses);
    }

    // Phases

    /** The evaluation of an iteration, asked for or reloaded, and the version that fences it. */
    method Evaluate(i: nat) returns (alive: bool, decided: Option<(Evaluation, int)>)
      requires Ready(i)
      modifies this, store
      ensures Valid() && Took(old(Clock()), 3) && Spared(alive)
      ensures alive && decided.None? ==> Conclusive() && Concluded(i)
      ensures alive && decided.Some? ==> Working(i) && Restored(i, decided.value.0, decided.value.1)
    {
      alive := Reach();
      if !alive { return false, None; }
      var row := store.iterations[i];
      alive := Reach();
      if !alive { return false, None; }
      var version := store.goal.steerVersion;
      RowOf(store.Contents(), i);
      if row.evaluation.Some? {
        RestoredVersionFences(row.evaluation.value, version);
        return true, Some((row.evaluation.value.value, RestoredVersion(row.evaluation.value, version)));
      }
      alive, decided := AskEvaluator(i, version);
    }

    method AskEvaluator(i: nat, version: nat) returns (alive: bool, decided: Option<(Evaluation, int)>)
      requires Ready(i) && store.iterations[i].evaluation.None? && version <= store.goal.steerVersion
      modifies this, store
      ensures Valid() && Took(old(Clock()), 1) && Spared(alive)
      ensures alive && decided.None? ==> Conclusive() && Concluded(i)
      ensures alive && decided.Some? ==> Working(i) && Restored(i, decided.value.0, decided.value.1)
    {
      var evaluation := env.evaluate(tick);
      if !ValidEvaluation(evaluation) { return false, None; }
      alive := Reach();
      if !alive { return false, None; }
      var ok := CommitEvaluation(i, evaluation, version);
      if !ok { return true, None; }
      return true, Some((evaluation, version));
    }

    method CommitEvaluation(i: nat, e: Evaluation, version: nat) returns (ok: bool)
      requires Working(i) && store.iterations[i].evaluation.None? && ValidEvaluation(e)
          && version <= store.goal.steerVersion
      requires !Told(store.Contents()).stalled && !store.goal.state.Terminated?
      modifies store
      ensures Valid()
      ensures !ok ==> Conclusive() && Concluded(i)
      ensures ok ==> Working(i) && store.goal.steerVersion == version
      ensures ok ==> store.iterations[i].evaluation == Some(Checkpoint(e, version, Some(version)))
    {
      ghost var w := store.Contents();
      EvaluationKeepsInv(w, i, e, version);
      ok := store.RecordEvaluation(i, e, version);
      Carried(origin, w, store.Contents(), env, accesses);
    }

    /** The evaluation in row i, and an expected version that is never ahead. */
    ghost predicate Restored(i: nat, evaluation: Evaluation, expected: int)
      requires i < |store.iterations|
      reads store
    {
      && store.iterations[i].evaluation.Some? && store.iterations[i].evaluation.value.value == evaluation
      && FencedBy(store.iterations[i].evaluation.value, expected) && expected <= store.goal.steerVersion
    }

    /** Row i awaits the plan of an incomplete evaluation below the no-progress limit. */
    ghost predicate Plannable(i: nat)
      reads this, store
    {
      && Working(i) && store.iterations[i].plan.None? && store.iterations[i].evaluation.Some?
      && store.iterations[i].evaluation.value.value.disposition.Incomplete?
      && store.goal.noProgress < store.goal.budget.noProgressLimit && !Told(store.Contents()).stalled
    }

    /** Row i holds the plan, made under guidance that is still the latest. */
    ghost predicate Adopted(i: nat, keys: seq<string>, version: nat)
      reads this, store
    {
      Working(i) && store.iterations[i].plan == Some(keys) && keys != [] && store.goal.steerVersion == version
    }

    /** The planning phase. */
    method Plan(i: nat) returns (alive: bool, go: bool)
      requires Plannable(i)
      modifies this, store
      ensures Valid() && Took(old(Clock()), 5) && Spared(alive)
      ensures alive && !go ==> Conclusive() && Closed(i)
      ensures alive && go ==> Working(i) && store.iterations[i].plan.Some?
    {
      alive := Reach();
      if !alive { return false, false; }
      if !store.goal.state.Running? { return true, false; }
      alive := Reach();
      if !alive { return false, false; }
      alive, go := ActOnPlan(i, env.plan(tick), store.goal.steerVersion);
    }

    /** What the engine does with a plan computed from a context of the given version: it commits just that
        plan under that version, or ends the goal or finishes the iteration. */
    method ActOnPlan(i: nat, keys: seq<string>, version: nat) returns (alive: bool, go: bool)
      requires Plannable(i) && version <= store.goal.steerVersion && (Calm(env) ==> Distinct(keys))
      modifies this, store
      ensures Valid() && Took(old(Clock()), 3) && Spared(alive)
      ensures alive && !go ==> Conclusive() && Concluded(i)
      ensures alive && go ==> Adopted(i, keys, version)
    {
      alive := Reach();
      if !alive { return false, false; }
      if store.goal.steerVersion != version {
        alive := InterruptForSteer(i, version);
        return alive, false;
      }
      if keys == [] {
        alive := EndPhase(i, NoProgress, version);
        return alive, false;
      }
      alive, go := AdoptPlan(i, keys, version);
    }

    method AdoptPlan(i: nat, keys: seq<string>, version: nat) returns (alive: bool, go: bool)
      requires Plannable(i) && version <= store.goal.steerVersion && keys != [] && (Calm(env) ==> Distinct(keys))
      modifies this, store
      ensures Valid() && Took(old(Clock()), 2) && Spared(alive)
      ensures alive && !go ==> Conclusive() && Concluded(i)
      ensures alive && go ==> Adopted(i, keys, version)
    {
      alive := Reach();
      if !alive { return false, false; }
      if store.goal.taskCount + |keys| > store.goal.budget.maxTasks {
        alive := EndPhase(i, BudgetLimit, version);
        return alive, false;
      }
      if !Distinct(keys) { return false, false; }
      alive := Reach();
      if !alive { return false, false; }
      go := CommitPlan(i, keys, version);
    }

    method CommitPlan(i: nat, keys: seq<string>, version: nat) returns (ok: bool)
      requires Plannable(i) && version <= store.goal.steerVersion
      requires 1 <= |keys| && store.goal.taskCount + |keys| <= store.goal.budget.maxTasks
      modifies store
      ensures Valid() && Conclusive()
      ensures if ok then Adopted(i, keys, version) else Concluded(i)
    {
      ghost var w := store.Contents();
      RowOf(w, i);
      PlanKeepsInv(w, i, keys, version);
      ok := store.RecordPlan(i, keys, version);
      Carried(origin, w, store.Contents(), env, accesses);
      SummariesAreSound(store.goal.budget, store.events, |store.events|);
    }

    method InterruptForSteer(i: nat, version: nat) returns (alive: bool)
      requires Working(i) && version < store.goal.steerVersion && !Told(store.Contents()).stalled
      modifies this, store
      ensures Valid() && Took(old(Clock()), 1) && Spared(alive)
      ensures alive ==> Conclusive() && Concluded(i)
    {
      alive := Reach();
      if !alive { return; }
      ghost var w := store.Contents();
      InterruptKeepsInv(w, i, version);
      var _ := store.InterruptStalePhase(i, version);
      Carried(origin, w, store.Contents(), env, accesses);
    }

    /** The verifier's decision, asked for or reloaded, with the version that it rests on. */
    method VerificationCheckpoint(i: nat, expected: int) returns (alive: bool, decided: Option<(Verification, int)>)
      requires Working(i) && Verifiable(store.iterations[i]) && expected <= store.goal.steerVersion
      modifies this, store
      ensures Valid() && Took(old(Clock()), 6) && Spared(alive)
      ensures alive && decided.None? ==> Conclusive() && Closed(i)
      ensures alive && decided.Some? ==> Working(i) && Checkpointed(i, decided.value.0, decided.value.1)
      ensures alive && decided.Some? ==> store.iterations[i].actions == old(store.iterations[i].actions)
    {
      VerifiableIsNotStalled(store.Contents(), i);
      alive := Reach();
      if !alive { return false, None; }
      if store.iterations[i].verification.Some? {
        alive, decided := ReloadVerification(i, store.iterations[i].verification.value);
      } else {
        alive, decided := AskVerifier(i, expected);
      }
    }

    method ReloadVerification(i: nat, c: Checkpoint<Verification>)
      returns (alive: bool, decided: Option<(Verification, int)>)
      requires Working(i) && store.iterations[i].verification == Some(c) && store.iterations[i].evaluation.Some?
      requires !Told(store.Contents()).stalled
      modifies this, store
      ensures Valid() && Took(old(Clock()), 2) && Spared(alive)
      ensures alive && decided.None? ==> Conclusive() && Closed(i)
      ensures alive && decided.Some? ==> Working(i) && Checkpointed(i, decided.value.0, decided.value.1)
      ensures alive && decided.Some? ==> store.iterations[i].actions == old(store.iterations[i].actions)
    {
      alive := Reach();
      if !alive { return false, None; }
      var version := store.goal.steerVersion;
      RowOf(store.Contents(), i);
      if c.recorded.None? && version > 0 {
        var current;
        alive, current := PhaseIsCurrent(i, -1);
        return alive, None;
      }
      return true, Some((c.value, RestoredVersion(c, version)));
    }

    /** The verifier is only asked while the goal is running and the phase is current. */
    method AskVerifier(i: nat, expected: int) returns (alive: bool, decided: Option<(Verification, int)>)
      requires Working(i) && Verifiable(store.iterations[i]) && expected <= store.goal.steerVersion
      requires store.iterations[i].verification.None? && !Told(store.Contents()).stalled
      modifies this, store
      ensures Valid() && Took(old(Clock()), 5) && Spared(alive)
      ensures alive && decided.None? ==> Conclusive() && Closed(i)
      ensures alive && decided.Some? ==> Working(i) && Checkpointed(i, decided.value.0, decided.value.1)
      ensures alive && decided.Some? ==> store.iterations[i].actions == old(store.iterations[i].actions)
    {
      alive := Reach();
      if !alive { return false, None; }
      if !store.goal.state.Running? { return true, None; }
      var current;
      alive, current := PhaseIsCurrent(i, expected);
      if !alive || !current { return alive, None; }
      alive, decided := Verify(i);
    }

    method Verify(i: nat) returns (alive: bool, decided: Option<(Verification, int)>)
      requires Working(i) && Verifiable(store.iterations[i]) && store.iterations[i].verification.None?
      modifies this, store
      ensures Valid() && Took(old(Clock()), 3) && Spared(alive)
      ensures alive && decided.None? ==> Conclusive() && Closed(i)
      ensures alive && decided.Some? ==> Working(i) && Checkpointed(i, decided.value.0, decided.value.1)
      ensures alive && decided.Some? ==> store.iterations[i].actions == old(store.iterations[i].actions)
    {
      alive := EnterPhase(i, Verifying);
      if !alive { return false, None; }
      alive, decided := RecordVerdict(i);
    }

    method RecordVerdict(i: nat) returns (alive: bool, decided: Option<(Verification, int)>)
      requires Working(i) && Verifiable(store.iterations[i]) && store.iterations[i].verification.None?
      modifies this, store
      ensures Valid() && Took(old(Clock()), 2) && Spared(alive)
      ensures alive && decided.None? ==> Conclusive() && Closed(i)
      ensures alive && decided.Some? ==> Working(i) && Checkpointed(i, decided.value.0, decided.value.1)
      ensures alive && decided.Some? ==> store.iterations[i].actions == old(store.iterations[i].actions)
    {
      alive := Reach();
      if !alive { return false, None; }
      var version := store.goal.steerVersion;
      var v := env.verify(tick);
      if !ValidVerification(v) { return false, None; }
      alive := Reach();
      if !alive { return false, None; }
      var ok := CommitVerification(i, v, version);
      if !ok { return true, None; }
      return true, Some((v, version));
    }

    method CommitVerification(i: nat, v: Verification, version: nat) returns (ok: bool)
      requires Working(i) && Verifiable(store.iterations[i]) && store.iterations[i].verification.None?
      requires ValidVerification(v) && version <= store.goal.steerVersion
      modifies store
      ensures Valid()
      ensures !ok ==> Conclusive() && Concluded(i)
      ensures ok ==> Working(i) && Checkpointed(i, v, version)
      ensures ok ==> store.iterations[i].actions == old(store.iterations[i].actions)
    {
      ghost var w := store.Contents();
      VerifiableIsNotStalled(w, i);
      VerificationKeepsInv(w, i, v, version);
      ok := store.RecordVerification(i, v, version);
      Carried(origin, w, store.Contents(), env, accesses);
    }

    /** The verification in row i, and the version of the context that it was computed from. */
    ghost predicate Checkpointed(i: nat, v: Verification, version: int)
      requires i < |store.iterations|
      reads store
    {
      && store.iterations[i].verification.Some? && store.iterations[i].verification.value.value == v
      && store.iterations[i].verification.value.basis == version
    }

    /** The last store access found the goal's own tasks still at work. */
    ghost predicate Waits(i: nat)
      reads this, store
    {
      i == |store.iterations| - 1 && !env.idle(tick)
    }

    ghost predicate HandledOnce(i: nat)
      reads this, store
    {
      Closed(i) || Waits(i)
    }

    method ApplyVerificationOutcome(i: nat, v: Verification, failures: nat, version: int) returns (alive: bool)
      requires Working(i) && Checkpointed(i, v, version) && failures == Unsuccessful(store.iterations[i].actions)
      modifies this, store
      ensures Valid() && Took(old(Clock()), 4) && Spared(alive)
      ensures alive ==> Conclusive() && (Concluded(i) || Waits(i))
    {
      RowOf(store.Contents(), i);
      VerifiableIsNotStalled(store.Contents(), i);
      if v.satisfied {
        alive := Reach();
        if !alive { return; }
        if !env.idle(tick) { return true; }
        alive := EndPhase(i, Success, version);
        return;
      }
      if v.reason.Some? {
        alive := EndPhase(i, v.reason.value, version);
        return;
      }
      var current;
      alive, current := PhaseIsCurrent(i, version);
      if !alive || !current { return; }
      alive := Replan(i, v, failures);
    }

    method Replan(i: nat, v: Verification, failures: nat) returns (alive: bool)
      requires Working(i) && store.iterations[i].verification.Some?
          && store.iterations[i].verification.value.value == v && Unmet(v)
      requires failures == Unsuccessful(store.iterations[i].actions)
      modifies this, store
      ensures Valid() && Took(old(Clock()), 3) && Spared(alive)
      ensures alive ==> Conclusive() && Concluded(i)
    {
      RowOf(store.Contents(), i);
      VerifiableIsNotStalled(store.Contents(), i);
      alive := Reach();
      if !alive { return; }
      if !store.iterations[i].phase.Replanning? {
        alive := ReportReplan(i, v, failures);
        if !alive { return; }
      }
      alive := EnterPhase(i, Done);
    }

    method ReportReplan(i: nat, v: Verification, failures: nat) returns (alive: bool)
      requires Working(i) && store.iterations[i].verification.Some?
          && store.iterations[i].verification.value.value == v && Unmet(v)
      requires failures == Unsuccessful(store.iterations[i].actions)
      modifies this, store
      ensures Valid() && Took(old(Clock()), 1) && Spared(alive)
      ensures alive ==> Working(i) && Conclusive()
    {
      alive := Reach();
      if !alive { return; }
      ghost var w := store.Contents();
      ReplanKeepsInv(w, i, failures);
      store.CompleteReplan(i, v, failures);
      Carried(origin, w, store.Contents(), env, accesses);
    }

    // Dispatch and collection

    /** The row under work has the same plan and evaluation as before, and its actions have advanced. */
    ghost predicate SameWork(i: nat, row: Iteration)
      reads store
    {
      && i < |store.iterations| && store.iterations[i].plan == row.plan
      && store.iterations[i].evaluation == row.evaluation
      && ActionsAdvance(row.actions, store.iterations[i].actions)
    }

    /** Only action a of row i differs from before. */
    ghost predicate OnlyAction(i: nat, row: Iteration, a: nat)
      reads store
    {
      && SameWork(i, row)
      && forall c :: 0 <= c < |row.actions| && c != a ==> store.iterations[i].actions[c] == row.actions[c]
    }

    ghost predicate AllOffered(i: nat)
      reads store
    {
      i < |store.iterations| && OfferedBelow(store.iterations[i].actions, |store.iterations[i].actions|)
    }

    /** Hands one action to the dispatcher, unless the goal stopped running; what the dispatcher raises
        fails the action. */
    method DispatchAction(i: nat, a: nat) returns (alive: bool, gated: bool, running: bool)
      requires Working(i) && a < |store.iterations[i].actions| && Unsettled(store.iterations[i].actions[a])
      modifies this, store
      ensures Valid() && Took(old(Clock()), 3) && Spared(alive)
      ensures alive ==> Working(i) && OnlyAction(i, old(store.iterations[i]), a)
      ensures alive && !gated ==> !Waiting(store.iterations[i].actions[a])
      ensures gated ==> !store.goal.state.Running?
      ensures Calm(env) ==> store.goal == old(store.goal)
    {
      gated, running := false, false;
      alive := Reach();
      if !alive { return; }
      if !store.goal.state.Running? { return true, true, false; }
      alive, running := OfferAction(i, a);
    }

    method OfferAction(i: nat, a: nat) returns (alive: bool, running: bool)
      requires Working(i) && a < |store.iterations[i].actions| && Unsettled(store.iterations[i].actions[a])
      modifies this, store
      ensures Valid() && Took(old(Clock()), 2) && Spared(alive)
      ensures alive ==> Working(i) && OnlyAction(i, old(store.iterations[i]), a)
      ensures alive ==> !Waiting(store.iterations[i].actions[a])
      ensures Calm(env) ==> store.goal == old(store.goal)
    {
      var action := store.iterations[i].actions[a];
      running := false;
      alive := ChangeAction(i, a, action.(state := Dispatching));
      if !alive { return; }
      running := env.dispatch(tick);
      alive := ChangeAction(
        i, a, if running then action.(state := InFlight, dispatched := true) else action.(state := Failed));
    }

    /** Reattaches to one action in flight, unless this process started it. */
    method ReattachAction(i: nat, a: nat, mine: bool) returns (alive: bool, running: bool)
      requires Working(i) && a < |store.iterations[i].actions| && store.iterations[i].actions[a].state.InFlight?
      modifies this, store
      ensures Valid() && Took(old(Clock()), 1) && Spared(alive)
      ensures alive ==> Working(i) && OnlyAction(i, old(store.iterations[i]), a)
      ensures alive ==> !Waiting(store.iterations[i].actions[a])
      ensures alive ==> (running <==> store.iterations[i].actions[a].state.InFlight?)
    {
      var action := store.iterations[i].actions[a];
      if action.dispatched && mine { return true, true; }
      running := action.dispatched && env.dispatch(tick);
      alive := ChangeAction(i, a, if running then action else action.(state := Failed));
    }

    /** Offers every unsettled, not yet running action to the dispatcher, while the goal is running. */
    method DispatchActions(i: nat) returns (alive: bool, started: set<nat>)
      requires Working(i)
      modifies this, store
      ensures Valid() && Took(old(Clock()), 1 + 3 * |old(store.iterations[i].actions)|) && Spared(alive)
      ensures alive ==> Working(i) && SameWork(i, old(store.iterations[i]))
      ensures alive && Calm(env) && old(store.goal.state.Running?) ==> AllOffered(i)
    {
      started := {};
      alive := Reach();
      if !alive { return; }
      alive, started := DispatchEach(i);
    }

    method DispatchEach(i: nat) returns (alive: bool, started: set<nat>)
      requires Working(i)
      modifies this, store
      ensures Valid() && Took(old(Clock()), 3 * |old(store.iterations[i].actions)|) && Spared(alive)
      ensures alive ==> Working(i) && SameWork(i, old(store.iterations[i]))
      ensures alive && Calm(env) && old(store.goal.state.Running?) ==> AllOffered(i)
    {
      started := {};
      var rows := store.iterations[i].actions;
      for a := 0 to |rows|
        invariant Working(i) && SameWork(i, old(store.iterations[i])) && Took(old(Clock()), 3 * a)
        invariant |rows| == |store.iterations[i].actions| && (Calm(env) ==> store.goal == old(store.goal))
        invariant forall c :: a <= c < |rows| ==> store.iterations[i].actions[c] == rows[c]
        invariant OfferedBelow(store.iterations[i].actions, a)
      {
        ghost var before := store.iterations[i].actions;
        if Waiting(rows[a]) {
          var gated, running;
          alive, gated, running := DispatchAction(i, a);
          if !alive || gated { return; }
          started := With(started, a, running);
        }
        OneMoreOffered(before, store.iterations[i].actions, a);
      }
      return true, started;
    }

    ghost predicate AwaitedBelow(i: nat, n: nat, pending: set<nat>)
      reads store
    {
      && i < |store.iterations| && n <= |store.iterations[i].actions|
      && InFlightBelow(store.iterations[i].actions, n, pending)
    }

    /** Collection waits for exactly the actions in flight. */
    ghost predicate Awaited(i: nat, pending: set<nat>)
      reads store
    {
      i < |store.iterations| && AwaitedBelow(i, |store.iterations[i].actions|, pending)
    }

    /** Reattaches to the actions in flight, or fails them. */
    method Reattach(i: nat, started: set<nat>) returns (alive: bool, pending: set<nat>)
      requires Working(i)
      modifies this, store
      ensures Valid() && Took(old(Clock()), 2 + |old(store.iterations[i].actions)|) && Spared(alive)
      ensures alive ==> Working(i) && SameWork(i, old(store.iterations[i])) && Awaited(i, pending)
    {
      pending := {};
      alive := Reach();
      if !alive { return; }
      var rows := store.iterations[i].actions;
      if forall a :: 0 <= a < |rows| ==> !rows[a].state.InFlight? { return; }
      alive := EnterPhase(i, Collect);
      if !alive { return; }
      alive, pending := ReattachEach(i, started);
    }

    method ReattachEach(i: nat, started: set<nat>) returns (alive: bool, pending: set<nat>)
      requires Working(i)
      modifies this, store
      ensures Valid() && Took(old(Clock()), |old(store.iterations[i].actions)|) && Spared(alive)
      ensures alive ==> Working(i) && SameWork(i, old(store.iterations[i])) && Awaited(i, pending)
    {
      pending := {};
      var rows := store.iterations[i].actions;
      for a := 0 to |rows|
        invariant Working(i) && SameWork(i, old(store.iterations[i])) && Took(old(Clock()), a)
        invariant forall c :: a <= c < |rows| ==> store.iterations[i].actions[c] == rows[c]
        invariant AwaitedBelow(i, a, pending)
      {
        ghost var before := store.iterations[i].actions;
        var running := false;
        if rows[a].state.InFlight? {
          alive, running := ReattachAction(i, a, a in started);
          if !alive { return; }
        }
        OneMoreAction(before, store.iterations[i].actions, a, pending);
        pending := With(pending, a, running);
      }
      return true, pending;
    }

    function Outcome(action: Action, c: Collected): (r: Action)
      ensures !Unsettled(r)
    {
      match c
      case Raised => action.(state := Failed)
      case Returned(succeeded, cancelled) =>
        var state := if cancelled then Cancelled else if succeeded then Completed else Failed;
        action.(state := state, succeeded := Some(succeeded))
    }

    method SettleAction(i: nat, a: nat, action: Action) returns (alive: bool)
      requires Working(i) && a < |store.iterations[i].actions| && store.iterations[i].actions[a].state.InFlight?
      requires !Unsettled(action)
      modifies this, store
      ensures Valid() && Took(old(Clock()), 1) && Spared(alive)
      ensures alive ==> Working(i) && OnlyAction(i, old(store.iterations[i]), a)
      ensures alive ==> !Unsettled(store.iterations[i].actions[a])
    {
      alive := ChangeAction(i, a, action);
    }

    /** Settles one action if it has finished at moment t. */
    method HarvestAction(i: nat, a: nat, t: nat) returns (alive: bool, running: bool)
      requires Working(i) && a < |store.iterations[i].actions| && store.iterations[i].actions[a].state.InFlight?
      modifies this, store
      ensures Valid() && Took(old(Clock()), 1) && Spared(alive)
      ensures alive ==> Working(i) && OnlyAction(i, old(store.iterations[i]), a)
      ensures alive ==> !Waiting(store.iterations[i].actions[a])
      ensures alive ==> (running <==> store.iterations[i].actions[a].state.InFlight?)
      ensures running <==> env.collect(t, a).None?
    {
      var result := env.collect(t, a);
      if result.None? { return true, true; }
      running := false;
      alive := SettleAction(i, a, Outcome(store.iterations[i].actions[a], result.value));
    }

    ghost predicate StillRunning(rest: set<nat>, t: nat)
    {
      forall a :: a in rest ==> env.collect(t, a).None?
    }

    /** Settles the actions that have finished at moment t and keeps waiting for the rest. */
    method Harvest(i: nat, pending: set<nat>, t: nat) returns (alive: bool, rest: set<nat>)
      requires Working(i) && Awaited(i, pending)
      modifies this, store
      ensures Valid() && Took(old(Clock()), |old(store.iterations[i].actions)|) && Spared(alive)
      ensures alive ==> Working(i) && SameWork(i, old(store.iterations[i])) && Awaited(i, rest)
      ensures alive ==> StillRunning(rest, t)
    {
      rest := {};
      var rows := store.iterations[i].actions;
      for a := 0 to |rows|
        invariant Working(i) && SameWork(i, old(store.iterations[i])) && Took(old(Clock()), a)
        invariant StillRunning(rest, t)
        invariant forall c :: a <= c < |rows| ==> store.iterations[i].actions[c] == rows[c]
        invariant AwaitedBelow(i, a, rest)
      {
        ghost var before := store.iterations[i].actions;
        var running := false;
        if a in pending {
          alive, running := HarvestAction(i, a, t);
          if !alive { return; }
        }
        OneMoreAction(before, store.iterations[i].actions, a, rest);
        rest := With(rest, a, running);
      }
      return true, rest;
    }

    /** Gives up on every awaited action after a hard pause or the end of the goal. */
    method CancelAll(i: nat, pending: set<nat>) returns (alive: bool)
      requires Working(i) && Awaited(i, pending) && store.iterations[i].plan.Some?
      modifies this, store
      ensures Valid() && Took(old(Clock()), 2 * |old(store.iterations[i].actions)|) && Spared(alive)
      ensures alive ==> Working(i) && SameWork(i, old(store.iterations[i])) && Awaited(i, {})
    {
      for a := 0 to |store.iterations[i].actions|
        invariant Working(i) && Took(old(Clock()), a) && store.iterations == old(store.iterations)
      {
        if a !in pending { continue; }
        alive := NoteCancellation(i, a);
        if !alive { return; }
      }
      alive := SettleAll(i, pending);
    }

    method SettleAll(i: nat, pending: set<nat>) returns (alive: bool)
      requires Working(i) && Awaited(i, pending) && store.iterations[i].plan.Some?
      modifies this, store
      ensures Valid() && Took(old(Clock()), |old(store.iterations[i].actions)|) && Spared(alive)
      ensures alive ==> Working(i) && SameWork(i, old(store.iterations[i])) && Awaited(i, {})
    {
      var rows := store.iterations[i].actions;
      for a := 0 to |rows|
        invariant Working(i) && SameWork(i, old(store.iterations[i])) && Took(old(Clock()), a)
        invariant forall c :: a <= c < |rows| ==> store.iterations[i].actions[c] == rows[c]
        invariant AwaitedBelow(i, a, {})
      {
        ghost var before := store.iterations[i].actions;
        if a in pending {
          alive := SettleAction(i, a, rows[a].(state := Cancelled));
          if !alive { return; }
        }
        OneMoreAction(before, store.iterations[i].actions, a, {});
      }
      return true;
    }

    method NoteCancellation(i: nat, a: nat) returns (alive: bool)
      requires Working(i) && store.iterations[i].plan.Some?
      modifies this, store
      ensures Valid() && Took(old(Clock()), 1) && Spared(alive)
      ensures alive ==> Working(i) && store.iterations == old(store.iterations)
    {
      alive := Reach();
      if !alive { return; }
      ghost var w := store.Contents();
      CancellationKeepsInv(w, i, a);
      store.NoteCancellation(i, a);
      Carried(origin, w, store.Contents(), env, accesses);
    }

    /** Ends the goal on a budget that ran out while its actions were in flight. */
    method EndOverspent(i: nat) returns (alive: bool)
      requires Working(i) && store.iterations[i].plan.Some?
      modifies this, store
      ensures Valid() && Took(old(Clock()), 1) && Spared(alive)
      ensures alive ==> Working(i) && store.iterations == old(store.iterations)
    {
      alive := Reach();
      if !alive { return; }
      ghost var w := store.Contents();
      RowOf(w, i);
      EndKeepsInv(w, BudgetLimit, env.now(tick));
      store.TerminateGoal(BudgetLimit, env.now(tick));
      Carried(origin, w, store.Contents(), env, accesses);
    }

    /** One poll of the collection loop. It waits no longer for what has finished. */
    method Poll(i: nat, pending: set<nat>) returns (alive: bool, rest: set<nat>)
      requires Working(i) && Awaited(i, pending) && store.iterations[i].plan.Some?
      modifies this, store
      ensures Valid() && Took(old(Clock()), 2 + 2 * |old(store.iterations[i].actions)|) && Spared(alive)
      ensures alive ==> life < old(life)
      ensures alive ==> Working(i) && SameWork(i, old(store.iterations[i])) && Awaited(i, rest)
      ensures alive && Quiet(env, quiet) && quiet <= old(tick) ==> rest == {}
    {
      rest := {};
      alive := Reach();
      if !alive { return; }
      var t := tick;
      var state := store.goal.state;
      if state.Running? && env.overspent(t) {
        alive := EndOverspent(i);
        if !alive { return; }
        state := Terminated;
      }
      if state.HardPaused? || Terminal(state) {
        alive := CancelAll(i, pending);
        return;
      }
      alive, rest := Harvest(i, pending, t);
    }

    /** Leaves no action of the iteration in flight, and in calm none unsettled. Apart from the controls it
        changes the unsettled actions of the iteration and its phase, and ends the goal if a budget runs
        out meanwhile. */
    method DispatchAndCollect(i: nat) returns (alive: bool)
      requires Working(i) && store.iterations[i].plan.Some?
      modifies this, store
      ensures Valid() && Took(old(Clock()), 7 + 7 * |old(store.iterations[i].actions)|) && Spared(alive)
      ensures alive ==> Working(i) && SameWork(i, old(store.iterations[i])) && Awaited(i, {})
      ensures alive && Calm(env) && old(store.goal.state.Running?) ==> Settled(store.iterations[i])
    {
      alive := EnterPhase(i, Dispatch);
      if !alive { return; }
      alive := Reach();
      if !alive { return; }
      var started;
      alive, started := DispatchActions(i);
      if !alive { return; }
      alive := CollectActions(i, started);
    }

    method CollectActions(i: nat, started: set<nat>) returns (alive: bool)
      requires Working(i) && store.iterations[i].plan.Some?
      modifies this, store
      ensures Valid() && Took(old(Clock()), 4 + 4 * |old(store.iterations[i].actions)|) && Spared(alive)
      ensures alive ==> Working(i) && SameWork(i, old(store.iterations[i])) && Awaited(i, {})
    {
      var pending;
      ghost var n := |store.iterations[i].actions|;
      alive, pending := Reattach(i, started);
      if !alive { return; }
      while pending != {}
        invariant Working(i) && SameWork(i, old(store.iterations[i])) && Awaited(i, pending)
        invariant Took(old(Clock()), if pending == {} then 4 + 4 * n else 2 + 2 * n)
        decreases life
      {
        alive, pending := Poll(i, pending);
        if !alive { return; }
      }
      return true;
    }

    // The iteration

    /** What follows collection: verification of the settled actions, unless a control intervened. */
    method VerifyActions(i: nat) returns (alive: bool)
      requires Working(i) && store.iterations[i].plan.Some?
      modifies this, store
      ensures Valid() && Took(old(Clock()), 13) && Spared(alive) && (alive ==> Conclusive())
      ensures alive && old(Settled(store.iterations[i])) ==> HandledOnce(i)
    {
      RowOf(store.Contents(), i);
      alive := Reach();
      if !alive { return; }
      if Paused(store.goal.state) { return true; }
      if Terminal(store.goal.state) {
        alive := EnterPhase(i, Interrupted);
        return;
      }
      alive := VerifySettled(i);
    }

    method VerifySettled(i: nat) returns (alive: bool)
      requires Working(i) && store.iterations[i].plan.Some? && store.iterations[i].evaluation.Some?
      requires !Told(store.Contents()).stalled
      modifies this, store
      ensures Valid() && Took(old(Clock()), 12) && Spared(alive) && (alive ==> Conclusive())
      ensures alive && old(Settled(store.iterations[i])) ==> HandledOnce(i)
    {
      alive := Reach();
      if !alive { return; }
      var actions := store.iterations[i].actions;
      if !Settled(store.iterations[i]) { return true; }
      alive := Judge(i, actions);
    }

    method Judge(i: nat, actions: seq<Action>) returns (alive: bool)
      requires Working(i) && Verifiable(store.iterations[i]) && store.iterations[i].actions == actions
      modifies this, store
      ensures Valid() && Took(old(Clock()), 11) && Spared(alive) && (alive ==> Conclusive() && HandledOnce(i))
    {
      alive := Reach();
      if !alive { return; }
      var decided;
      alive, decided := VerificationCheckpoint(i, store.goal.steerVersion);
      if !alive || decided.None? { return; }
      alive := ApplyVerificationOutcome(i, decided.value.0, Unsuccessful(actions), decided.value.1);
    }

    /** A satisfied evaluation only proposes completion; the verification decides. */
    method Confirm(i: nat, expected: int) returns (alive: bool)
      requires Working(i) && Verifiable(store.iterations[i]) && expected <= store.goal.steerVersion
      requires store.iterations[i].actions == []
      modifies this, store
      ensures Valid() && Took(old(Clock()), 10) && Spared(alive) && (alive ==> Conclusive() && HandledOnce(i))
    {
      var verdict;
      alive, verdict := VerificationCheckpoint(i, expected);
      if !alive || verdict.None? { return; }
      alive := ApplyVerificationOutcome(i, verdict.value.0, 0, verdict.value.1);
    }

    /** An incomplete evaluation that is current: no progress, or planning, work and verification. */
    method Proceed(i: nat, expected: int) returns (alive: bool)
      requires Working(i) && store.iterations[i].evaluation.Some? && expected <= store.goal.steerVersion
      requires FencedBy(store.iterations[i].evaluation.value, expected)
      requires store.iterations[i].evaluation.value.value.disposition.Incomplete?
      modifies this, store
      ensures Valid() && Took(old(Clock()), 28 + 7 * origin.goal.budget.maxTasks) && Spared(alive)
      ensures alive ==> Conclusive() && (Calm(env) ==> HandledOnce(i))
    {
      RowOf(store.Contents(), i);
      alive := Reach();
      if !alive { return; }
      if store.goal.noProgress >= store.goal.budget.noProgressLimit {
        alive := EndPhase(i, NoProgress, expected);
        return;
      }
      alive := Work(i);
    }

    /** Planning, unless there is a plan already, then dispatch, collection and verification. */
    method Work(i: nat) returns (alive: bool)
      requires Working(i) && store.iterations[i].evaluation.Some? && !Told(store.Contents()).stalled
      requires store.iterations[i].evaluation.value.value.disposition.Incomplete?
      requires store.goal.noProgress < store.goal.budget.noProgressLimit
      modifies this, store
      ensures Valid() && Took(old(Clock()), 27 + 7 * origin.goal.budget.maxTasks) && Spared(alive)
      ensures alive ==> Conclusive() && (Calm(env) ==> HandledOnce(i))
    {
      alive := Reach();
      if !alive { return; }
      if store.iterations[i].plan.None? {
        var go;
        alive, go := Plan(i);
        if !alive || !go { return; }
      }
      alive := CarryOut(i);
    }

    /** Dispatch, collection and verification of a plan, while the goal is running. */
    method CarryOut(i: nat) returns (alive: bool)
      requires Working(i) && store.iterations[i].plan.Some?
      modifies this, store
      ensures Valid() && Took(old(Clock()), 21 + 7 * origin.goal.budget.maxTasks) && Spared(alive)
      ensures alive ==> Conclusive() && (Calm(env) ==> HandledOnce(i))
    {
      RowOf(store.Contents(), i);
      alive := Reach();
      if !alive { return; }
      if !store.goal.state.Running? { return true; }
      alive := DispatchAndCollect(i);
      if !alive { return; }
      alive := VerifyActions(i);
    }

    /** Takes an iteration as far as it goes. Returning normally, it never leaves the goal stalled. */
    method AdvanceIteration(i: nat) returns (alive: bool)
      requires Ready(i)
      modifies this, store
      ensures Valid() && Took(old(Clock()), 32 + 7 * origin.goal.budget.maxTasks) && Spared(alive)
      ensures alive ==> Conclusive() && (Calm(env) ==> HandledOnce(i))
    {
      var decided;
      alive, decided := Evaluate(i);
      if !alive || decided.None? { return; }
      var evaluation, expected := decided.value.0, decided.value.1;
      alive := Decide(i, evaluation.disposition, expected);
    }

    method Decide(i: nat, disposition: Disposition, expected: int) returns (alive: bool)
      requires Working(i) && store.iterations[i].evaluation.Some? && expected <= store.goal.steerVersion
      requires store.iterations[i].evaluation.value.value.disposition == disposition
      requires FencedBy(store.iterations[i].evaluation.value, expected)
      modifies this, store
      ensures Valid() && Took(old(Clock()), 29 + 7 * origin.goal.budget.maxTasks) && Spared(alive)
      ensures alive ==> Conclusive() && (Calm(env) ==> HandledOnce(i))
    {
      var current;
      RowOf(store.Contents(), i);
      alive, current := PhaseIsCurrent(i, expected);
      if !alive || !current { return; }
      RowOf(store.Contents(), i);
      match disposition
      case Satisfied =>
        alive := Confirm(i, expected);
      case Terminate(reason) =>
        alive := EndPhase(i, reason.value, expected);
      case Incomplete =>
        alive := Proceed(i, expected);
    }

    /** How many iterations have finished: all but an active last one. */
    ghost function FinishedRows(): nat
      reads store
    {
      var n := |store.iterations|;
      if n > 0 && !Finished(store.iterations[n - 1]) then n - 1 else n
    }

    /** A goal that is not terminated, and stalled at most with its evaluation waiting in the last row. */
    ghost predicate Runnable()
      reads store
    {
      && !store.goal.state.Terminated? && !store.goal.state.Created?
      && (Told(store.Contents()).stalled ==>
            && store.iterations != [] && !Finished(store.iterations[|store.iterations| - 1])
            && store.iterations[|store.iterations| - 1].evaluation.Some?)
    }

    /** Begins an iteration, unless a budget guard on the goal as it was read ends the goal. */
    method Begin(goal: Goal) returns (alive: bool, begun: Option<nat>)
      requires Valid() && Runnable() && ActiveIteration(store.iterations).None?
      requires goal.iterationCount == store.goal.iterationCount && goal.budget == store.goal.budget
      requires goal.failureCount == store.goal.failureCount
      modifies this, store
      ensures Valid() && Took(old(Clock()), 1) && Spared(alive)
      ensures alive && begun.Some? ==> Ready(begun.value) && begun.value == old(FinishedRows())
      ensures alive && begun.None? ==> Terminal(store.goal.state)
    {
      ActiveIsLast(store.Contents());
      var guard := BudgetGuard(goal, env.overspent(tick));
      alive := Reach();
      if !alive { return false, None; }
      if guard.Some? {
        EndOnBudget(guard.value);
        return true, None;
      }
      var i := BeginIteration();
      return true, Some(i);
    }

    method EndOnBudget(reason: Reason)
      requires Valid() && Conclusive() && !reason.Success?
      modifies store
      ensures Valid() && Terminal(store.goal.state)
    {
      ghost var w := store.Contents();
      EndKeepsInv(w, reason, env.now(tick));
      store.TerminateGoal(reason, env.now(tick));
      Carried(origin, w, store.Contents(), env, accesses);
    }

    method BeginIteration() returns (i: nat)
      requires Valid() && !Told(store.Contents()).stalled && !store.goal.state.Terminated? && !store.goal.state.Created?
      requires store.goal.iterationCount < store.goal.budget.maxIterations
      requires store.goal.failureCount < store.goal.budget.maxFailures
      requires store.iterations == [] || Finished(store.iterations[|store.iterations| - 1])
      modifies store
      ensures Ready(i) && i == |old(store.iterations)|
    {
      ghost var w := store.Contents();
      i := |store.iterations|;
      BeginKeepsInv(w);
      store.BeginIteration();
      Carried(origin, w, store.Contents(), env, accesses);
    }

    /** Row i may be taken up. */
    ghost predicate Ready(i: nat)
      reads this, store
    {
      && Working(i)
      && (store.iterations[i].evaluation.None? ==> !Told(store.Contents()).stalled && !store.goal.state.Terminated?)
    }

    /** The iteration to work on: the active one, or a new one. */
    method TakeUp(goal: Goal) returns (alive: bool, i: Option<nat>)
      requires Valid() && store.goal == goal && goal.state.Running?
      modifies this, store
      ensures Valid() && Took(old(Clock()), 2) && Spared(alive)
      ensures alive && i.Some? ==> Ready(i.value) && i.value == old(FinishedRows())
      ensures alive && i.None? ==> Terminal(store.goal.state)
    {
      alive := Reach();
      if !alive { return false, None; }
      ActiveIsLast(store.Contents());
      i := ActiveIteration(store.iterations);
      if i.None? {
        alive, i := Begin(goal);
      }
    }

    method StartGoal() returns (alive: bool)
      requires Valid()
      modifies this, store
      ensures Valid() && Took(old(Clock()), 2) && Spared(alive)
      ensures store.iterations == old(store.iterations) && (alive ==> !store.goal.state.Created?)
    {
      alive := Reach();
      if !alive { return; }
      CommitStart();
      alive := Reach();
    }

    method CommitStart()
      requires Valid()
      modifies store
      ensures Valid() && store.iterations == old(store.iterations) && !store.goal.state.Created?
    {
      ghost var w := store.Contents();
      StartKeepsInv(w, env.now(tick));
      store.Start(env.now(tick));
      Carried(origin, w, store.Contents(), env, accesses);
    }

    /** One more iteration has finished, or the goal's own tasks are still at work. */
    ghost predicate Moved(before: nat)
      reads this, store
    {
      FinishedRows() > before || (FinishedRows() == before && !env.idle(tick))
    }

    /** run_once. advanced: an iteration was taken up, and then the goal is not left stalled. */
    method RunOnce() returns (alive: bool, advanced: bool)
      requires Valid()
      modifies this, store
      ensures Valid() && Took(old(Clock()), 37 + 7 * origin.goal.budget.maxTasks) && Spared(alive)
      ensures alive ==> life < old(life)
      ensures alive && advanced ==> Conclusive()
      ensures alive && Calm(env) && Unhampered(origin.goal.state) ==>
        Terminal(store.goal.state) || Moved(old(FinishedRows()))
    {
      advanced := false;
      alive := Reach();
      if !alive { return; }
      if store.goal.state.Created? {
        alive := StartGoal();
        if !alive { return; }
      }
      var goal := store.goal;
      if !goal.state.Running? { return; }
      alive, advanced := WorkOn(goal);
    }

    method WorkOn(goal: Goal) returns (alive: bool, advanced: bool)
      requires Valid() && store.goal == goal && goal.state.Running?
      modifies this, store
      ensures Valid() && Took(old(Clock()), 34 + 7 * origin.goal.budget.maxTasks) && Spared(alive)
      ensures alive && advanced ==> Conclusive()
      ensures alive && Calm(env) && Unhampered(origin.goal.state) ==>
        Terminal(store.goal.state) || Moved(old(FinishedRows()))
    {
      var i;
      alive, i := TakeUp(goal);
      if !alive || i.None? { return alive, false; }
      alive := MoveOn(i.value);
      return alive, true;
    }

    method MoveOn(i: nat) returns (alive: bool)
      requires Ready(i)
      modifies this, store
      ensures Valid() && Took(old(Clock()), 32 + 7 * origin.goal.budget.maxTasks) && Spared(alive)
      ensures alive ==> Conclusive()
      ensures alive && Calm(env) && Unhampered(origin.goal.state) ==> Terminal(store.goal.state) || Moved(i)
    {
      alive := AdvanceIteration(i);
      NotCreated(store.Contents());
    }

    /** How many rounds have finished an iteration or ended the goal, at most. */
    ghost function Rounds(): int
      reads this, store
    {
      if Terminal(store.goal.state) then origin.goal.budget.maxIterations + 1 else FinishedRows()
    }

    /** One round of the loop. */
    method Round() returns (alive: bool, over: bool)
      requires Valid()
      modifies this, store
      ensures Valid() && Spared(alive) && Took(old(Clock()), RoundCost(origin.goal.budget))
      ensures alive ==> life < old(life)
      ensures alive && over ==> Paused(store.goal.state) || Terminal(store.goal.state)
      ensures alive && !over && Quiet(env, quiet) && Unhampered(origin.goal.state) ==>
        late == 0 || Rounds() > old(Rounds())
    {
      RowsWithinBudget(store.Contents());
      alive := Reach();
      over := Paused(store.goal.state) || Terminal(store.goal.state);
      if !alive || over { return; }
      var advanced;
      alive, advanced := RunOnce();
    }

    method PaidRound(ghost began: nat) returns (alive: bool, over: bool)
      requires Valid() && 0 <= Rounds() < origin.goal.budget.maxIterations + 2
      requires Quiet(env, quiet) && Unhampered(origin.goal.state) ==>
        PaidFor(origin.goal.budget, late - began, Rounds(), true)
      modifies this, store
      ensures Valid() && Spared(alive) && tick + life == old(tick) + old(life) && life <= old(life)
      ensures alive ==> life < old(life)
      ensures 0 <= Rounds() < origin.goal.budget.maxIterations + 2
      ensures alive && over ==> Paused(store.goal.state) || Terminal(store.goal.state)
      ensures Quiet(env, quiet) && Unhampered(origin.goal.state) ==>
        PaidFor(origin.goal.budget, late - began, Rounds(), alive && !over)
    {
      ghost var taken, rounds := late - began, Rounds();
      alive, over := Round();
      RowsWithinBudget(store.Contents());
      if Quiet(env, quiet) && Unhampered(origin.goal.state) {
        NextRound(origin.goal.budget, taken, rounds, late - began, Rounds(), alive && !over);
      }
    }

    /** run: iterations until the goal is paused or over, or the process dies. In calm every round ends the
        goal, finishes an iteration or waits for the goal's own tasks, so a process that lives long enough
        ends the goal. */
    method RunGoal() returns (alive: bool)
      requires Valid()
      modifies this, store
      ensures Valid() && Spared(alive)
      ensures alive ==> Paused(store.goal.state) || Terminal(store.goal.state)
      ensures Quiet(env, quiet) && Unhampered(origin.goal.state) && old(life) > quiet + Enough(origin.goal.budget) ==>
        store.goal.state.Terminated?
    {
      var over := false;
      alive := true;
      RowsWithinBudget(store.Contents());
      ghost var b := origin.goal.budget;
      while alive && !over
        invariant Valid() && Spared(alive) && tick + life == old(tick) + old(life)
        invariant 0 <= Rounds() < b.maxIterations + 2
        invariant alive && over ==> Paused(store.goal.state) || Terminal(store.goal.state)
        invariant Quiet(env, quiet) && Unhampered(origin.goal.state) ==>
          PaidFor(b, late - old(late), Rounds(), alive && !over)
        decreases life, alive
      {
        alive, over := PaidRound(old(late));
      }
    }

    /** In quiet surroundings the last of n processes lives long enough for what is left to do. */
    ghost predicate LivesToTheEnd(lives: seq<nat>, n: nat)
      requires n <= |lives|
    {
      && Quiet(env, quiet) && Unhampered(origin.goal.state)
      && n > 0 && lives[n - 1] > quiet + Enough(origin.goal.budget)
    }

    /** One engine process after another, each dying after some number of store accesses. Cutting the
        last life short anywhere makes this say what holds at every moment. In quiet surroundings a last
        process that lives long enough terminates the goal. */
    method Serve(lives: seq<nat>)
      requires Valid()
      modifies this, store
      ensures Inv(store.Contents()) && Evolves(origin, store.Contents()) && SuccessWasIdle()
      ensures LivesToTheEnd(lives, |lives|) ==> store.goal.state.Terminated?
    {
      for k := 0 to |lives|
        invariant Valid()
        invariant LivesToTheEnd(lives, k) ==> store.goal.state.Terminated?
      {
        life := lives[k];
        var _ := RunGoal();
      }
    }
  }
}
