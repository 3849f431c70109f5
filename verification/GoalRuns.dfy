/**
 A goal from its creation through any number of engine processes.
 */
module GoalRuns {
  import opened Options
  import opened GoalRows
  import opened GoalHistory
  import opened GoalInvariant
  import opened GoalStore
  import opened GoalEngine
  import opened GoalTheorems

  /** How a goal comes to SUCCESS: event j records a satisfied verification of the goal's final guidance;
      a later look, at moment t, finds the goal's own tasks idle; and event k ends the goal, with nothing
      but human controls journalled between the look and the end. */
  ghost predicate Vouched(env: Environment, accesses: seq<nat>, w: World, j: nat, t: nat, k: nat) {
    && IdleLook(env, accesses, w.events, t, k)
    && j < accesses[t - 1] && w.events[j].Verified? && w.events[j].verification.satisfied
    && w.events[j].basis == w.goal.steerVersion && NoSteerFrom(w.events, j)
  }

  /** The verification that a SUCCESS rests on was recorded before the look. */
  lemma LookFollowsVerification(env: Environment, accesses: seq<nat>, w: World) returns (j: nat, t: nat, k: nat)
    requires Inv(w) && SuccessLooked(env, accesses, w.events)
    ensures Vouched(env, accesses, w, j, t, k)
  {
    t, k :| IdleLook(env, accesses, w.events, t, k);
    j := SuccessIsCurrent(w.goal.budget, w.events, k);
    ReadCountsSteers(w.goal.budget, w.events, |w.events|);
  }

  /** Creates a goal and lets engine processes work on it, each for some number of store accesses, amid
      any controls and any answers. Whenever that stops, the goal satisfies everything that is proved
      of the invariant, and SUCCESS is vouched for. If nobody interferes and, from some moment on, actions
      finish and the goal's own tasks are idle, a last process that lives long enough terminates the goal. */
  method ServeNewGoal(budget: Budget, env: Environment, lives: seq<nat>, ghost quiet: nat)
    returns (store: Store, engine: Engine)
    requires ValidBudget(budget)
    ensures fresh(store) && Inv(store.Contents()) && Evolves(CreateGoal(budget), store.Contents())
    ensures store.goal.budget == budget
    ensures |engine.accesses| == engine.tick
    ensures store.goal.reason == Some(Success) ==>
      exists j: nat, t: nat, k: nat :: Vouched(env, engine.accesses, store.Contents(), j, t, k)
    ensures Quiet(env, quiet) && lives != [] && lives[|lives| - 1] > quiet + Enough(budget) ==>
      store.goal.state.Terminated?
  {
    store := new Store(budget);
    FreshGoalFits(budget);
    engine := new Engine(store, env, store.Contents(), quiet);
    engine.Serve(lives);
    if store.goal.reason == Some(Success) {
      ghost var j, t, k := LookFollowsVerification(env, engine.accesses, store.Contents());
      assert Vouched(env, engine.accesses, store.Contents(), j, t, k);
    }
  }
}
