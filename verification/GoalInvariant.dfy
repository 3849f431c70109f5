/**
 What ties the rows of an autonomous goal to its journal, what every control and every engine
 transaction keeps of that, and how rows may change at all.
 */
module GoalInvariant {
  import opened Options
  import opened GoalRows
  import opened GoalJournal

  function Told(w: World): Summary { Read(w.goal.budget, w.events, |w.events|) }

  /** A goal row: it has a reason and a finish time exactly when it is stopped or terminated, and a
      pause mode exactly in the paused state of that mode. */
  predicate Lifecycle(g: Goal) {
    && ValidBudget(g.budget)
    && (Terminal(g.state) <==> g.reason.Some?)
    && (Terminal(g.state) <==> g.finishedAt.Some?)
    && (g.state.Stopped? ==> g.reason == Some(UserStopped))
    && (g.state.Running? ==> g.startedAt.Some?) && (g.state.Created? ==> g.startedAt.None?)
    && g.pauseMode == (if g.state.SoftPaused? then Some(Soft) else if g.state.HardPaused? then Some(Hard) else None)
  }

  predicate CheckpointFits<T>(c: Checkpoint<T>, version: nat) {
    c.basis <= version && (c.recorded.Some? ==> c.recorded.value == c.basis)
  }

  predicate Settled(row: Iteration) {
    forall a :: 0 <= a < |row.actions| ==> !Unsettled(row.actions[a])
  }

  /** An iteration row: its actions are those of its plan, only an incomplete evaluation is planned
      for, and a verification comes after every action has settled. */
  predicate RowFits(row: Iteration, n: nat, version: nat) {
    && row.sequence == n
    && |row.actions| == (if row.plan.Some? then |row.plan.value| else 0)
    && (row.evaluation.Some? ==>
          && CheckpointFits(row.evaluation.value, version) && ValidEvaluation(row.evaluation.value.value))
    && (row.plan.Some? ==> row.evaluation.Some? && row.evaluation.value.value.disposition.Incomplete?)
    && (row.verification.Some? ==>
          && CheckpointFits(row.verification.value, version) && ValidVerification(row.verification.value.value)
          && row.evaluation.Some? && Settled(row)
          && (row.plan.Some? || row.evaluation.value.value.disposition.Satisfied?))
  }

  /** The iteration rows: numbered 1..iteration_count, and none but the last still active. */
  predicate Rows(w: World) {
    && w.goal.iterationCount == |w.iterations|
    && (w.goal.state.Created? ==> w.iterations == [])
    && w.goal.taskCount == ActionCount(w.iterations)
    && w.goal.steerVersion == |w.steers|
    && (forall i :: 0 <= i < |w.steers| ==> w.steers[i].sequence == i + 1)
    && (forall i :: 0 <= i < |w.iterations| ==> RowFits(w.iterations[i], i + 1, w.goal.steerVersion))
    && (forall i :: 0 <= i < |w.iterations| - 1 ==> Finished(w.iterations[i]))
  }

  /** The columns of the goal row are what the journal adds up to. */
  predicate GoalTold(s: Summary, g: Goal) {
    && s.state == g.state && s.reason == g.reason && s.steers == g.steerVersion
    && s.iterations == g.iterationCount && s.tasks == g.taskCount && s.failures == g.failureCount
    && s.fingerprint == g.fingerprint && s.streak == g.noProgress
  }

  /** The checkpoints of the last row are those that the journal reports for it. */
  predicate RowTold(s: Summary, row: Iteration) {
    && (row.evaluation.Some? <==> s.evaluated == row.sequence)
    && (row.evaluation.Some? ==>
          s.disposition == row.evaluation.value.value.disposition && s.evaluationBasis == row.evaluation.value.basis)
    && (row.plan.Some? <==> s.planned == row.sequence)
    && (row.verification.Some? <==> s.verified == row.sequence)
    && (row.verification.Some? ==>
          s.verdict == row.verification.value.value && s.verdictBasis == row.verification.value.basis)
    && (s.replanned == row.sequence ==> s.reported == Unsuccessful(row.actions))
    && (s.stalled && !Terminal(s.state) ==>
          !Finished(row) && row.evaluation.Some? && row.evaluation.value.recorded.Some?)
  }

  predicate Tied(s: Summary, w: World) {
    && GoalTold(s, w.goal)
    && (if w.iterations == [] then s.evaluated == s.planned == s.verified == s.replanned == 0 && !s.stalled
        else RowTold(s, w.iterations[|w.iterations| - 1]))
  }

  /** Event k, if it is a replan, belongs to a verified row and reports its unsuccessful actions. */
  predicate ReplanFits(rows: seq<Iteration>, es: seq<Event>, k: nat)
    requires k < |es|
  {
    es[k].ReplanRequired? ==>
      && 1 <= es[k].n <= |rows| && rows[es[k].n - 1].verification.Some?
      && es[k].failedActions == Unsuccessful(rows[es[k].n - 1].actions)
  }

  predicate Replans(w: World) {
    forall k :: 0 <= k < |w.events| ==> ReplanFits(w.iterations, w.events, k)
  }

  /** The invariant but for the replans of earlier iterations. */
  ghost predicate Sane(w: World) {
    Lifecycle(w.goal) && Rows(w) && Journal(w.goal.budget, w.events) && Tied(Told(w), w)
  }

  datatype Standing = Intact | Damaged

  /** The judgement on the rows and the journal of a goal as one value. */
  ghost function StandingOf(w: World): Standing { if Sane(w) && Replans(w) then Intact else Damaged }

  ghost predicate Inv(w: World) { StandingOf(w) == Intact }

  // How the store may change

  /** A settled action never changes. */
  predicate ActionsEvolve(r: seq<Action>, t: seq<Action>) {
    |r| <= |t| && forall a :: 0 <= a < |r| && !Unsettled(r[a]) ==> t[a] == r[a]
  }

  /** Finished rows never change, and a checkpoint is never replaced. */
  predicate RowEvolves(r: Iteration, t: Iteration) {
    && t.sequence == r.sequence && ActionsEvolve(r.actions, t.actions)
    && (Finished(r) ==> t == r)
    && (r.evaluation.Some? ==> t.evaluation == r.evaluation)
    && (r.plan.Some? ==> t.plan == r.plan)
    && (r.verification.Some? ==> t.verification == r.verification)
  }

  predicate GoalEvolves(g: Goal, h: Goal) {
    && h.budget == g.budget && g.steerVersion <= h.steerVersion
    && (g.startedAt.Some? ==> h.startedAt == g.startedAt)
    && g.iterationCount <= h.iterationCount && g.taskCount <= h.taskCount && g.failureCount <= h.failureCount
    && (Terminal(g.state) ==>
          && h.state == g.state && h.reason == g.reason && h.finishedAt == g.finishedAt
          && h.pauseMode == g.pauseMode && h.steerVersion == g.steerVersion)
  }

  predicate Evolves(w: World, v: World) {
    && GoalEvolves(w.goal, v.goal)
    && w.events <= v.events && w.steers <= v.steers
    && |w.iterations| <= |v.iterations|
    && (forall i :: 0 <= i < |w.iterations| ==> RowEvolves(w.iterations[i], v.iterations[i]))
  }

  lemma EvolvesTwice(u: World, v: World, w: World)
    requires Evolves(u, v) && Evolves(v, w)
    ensures Evolves(u, w)
  {
    forall i | 0 <= i < |u.iterations|
      ensures RowEvolves(u.iterations[i], w.iterations[i])
    {
      assert RowEvolves(u.iterations[i], v.iterations[i]) && RowEvolves(v.iterations[i], w.iterations[i]);
    }
  }

  /** Once a row is verified its actions are settled, so they stay as they are. */
  lemma VerifiedRowsKeepActions(r: Iteration, t: Iteration, n: nat, before: nat, after: nat)
    requires RowFits(r, n, before) && RowFits(t, n, after) && RowEvolves(r, t) && r.verification.Some?
    ensures t.actions == r.actions && t.verification.Some?
  {
    assert |t.actions| == |r.actions|;
    assert forall a :: 0 <= a < |r.actions| ==> !Unsettled(r.actions[a]);
  }

  /** A replan just journalled is one of the last row. */
  lemma LastReplanFits(v: World)
    requires Sane(v) && v.events != []
    ensures ReplanFits(v.iterations, v.events, |v.events| - 1)
  {
    var k, b := |v.events| - 1, v.goal.budget;
    if v.events[k].ReplanRequired? {
      assert AllowedAt(b, v.events, k);
      SummariesAreSound(b, v.events, k);
      assert Told(v) == Note(b, Read(b, v.events, k), v.events[k]);
      assert v.iterations != [];
      assert RowFits(v.iterations[|v.iterations| - 1], |v.iterations|, v.goal.steerVersion);
    }
  }

  lemma ReplanCarriesOver(w: World, v: World, k: nat)
    requires Rows(w) && Rows(v) && Evolves(w, v) && k < |w.events| && ReplanFits(w.iterations, w.events, k)
    ensures ReplanFits(v.iterations, v.events, k)
  {
    var e := w.events[k];
    assert v.events[k] == e;
    if e.ReplanRequired? {
      var i := e.n - 1;
      assert RowEvolves(w.iterations[i], v.iterations[i]);
      VerifiedRowsKeepActions(w.iterations[i], v.iterations[i], i + 1, w.goal.steerVersion, v.goal.steerVersion);
    }
  }

  /** A transaction journals at most one event, so it keeps the invariant if it keeps the rest of it. */
  lemma ReplansKept(w: World, v: World)
    requires Inv(w) && Sane(v) && Evolves(w, v) && |v.events| <= |w.events| + 1
    ensures Inv(v)
  {
    forall k | 0 <= k < |v.events|
      ensures ReplanFits(v.iterations, v.events, k)
    {
      if k < |w.events| {
        ReplanCarriesOver(w, v, k);
      } else {
        LastReplanFits(v);
      }
    }
  }

  /** What the engine may count on while the controls of others reach the store: its rows and its
      counters stay, guidance only gets newer, and nobody else terminates the goal. */
  predicate Undisturbed(w: World, v: World) {
    && v.iterations == w.iterations
    && v.goal == w.goal.(
         state := v.goal.state, pauseMode := v.goal.pauseMode, reason := v.goal.reason,
         startedAt := v.goal.startedAt, finishedAt := v.goal.finishedAt, steerVersion := v.goal.steerVersion)
    && w.goal.steerVersion <= v.goal.steerVersion
    && (Terminal(w.goal.state) ==> v.goal.state == w.goal.state)
    && (v.goal.state.Created? ==> w.goal.state.Created?)
    && (v.goal.state.Terminated? ==> w.goal.state.Terminated?)
    && (v.goal.reason == w.goal.reason || v.goal.reason == Some(UserStopped))
    && (Told(v).stalled ==> Told(w).stalled)
  }

  ghost predicate Rely(w: World, v: World) {
    Inv(v) && Evolves(w, v) && Undisturbed(w, v) && OnlyControls(v.events, |w.events|, |v.events|)
  }

  lemma RelyTwice(u: World, v: World, w: World)
    requires Rely(u, v) && Rely(v, w)
    ensures Rely(u, w)
  {
    EvolvesTwice(u, v, w);
  }

  lemma RelySelf(w: World)
    requires Inv(w)
    ensures Rely(w, w)
  {
  }

  // A fresh goal

  lemma FreshGoalFits(b: Budget)
    requires ValidBudget(b)
    ensures Inv(CreateGoal(b))
  {
    var w := CreateGoal(b);
    assert Read(b, w.events, 0) == BLANK;
    assert AllowedAt(b, w.events, 0);
    assert Told(w) == BLANK;
  }

  // Controls

  lemma Heard(w: World, v: World, e: Event)
    requires Inv(w) && v.events == w.events + [e] && v.goal.budget == w.goal.budget
    requires Allowed(w.goal.budget, Told(w), e)
    ensures Journal(v.goal.budget, v.events) && Told(v) == Note(w.goal.budget, Told(w), e)
    ensures Sound(w.goal.budget, Told(w))
  {
    Extend(w.goal.budget, w.events, e);
    SummariesAreSound(w.goal.budget, w.events, |w.events|);
  }

  function ControlEvent(w: World, c: Control): Event {
    match c
    case Pause(mode) => GoalPaused(mode)
    case Resume => GoalResumed
    case Steering(instruction, _) => GoalSteered(w.goal.steerVersion + 1, instruction)
    case Stop(_) => GoalStopped
  }

  lemma RowsUnder(w: World, v: World)
    requires Rows(w) && v.iterations == w.iterations && w.goal.steerVersion <= v.goal.steerVersion
    requires v.goal.iterationCount == w.goal.iterationCount && v.goal.taskCount == w.goal.taskCount
    requires v.goal.state.Created? ==> w.goal.state.Created?
    requires v.goal.steerVersion == |v.steers| && (forall i :: 0 <= i < |v.steers| ==> v.steers[i].sequence == i + 1)
    ensures Rows(v)
  {
    forall i | 0 <= i < |v.iterations|
      ensures RowFits(v.iterations[i], i + 1, v.goal.steerVersion)
    {
      assert RowFits(w.iterations[i], i + 1, w.goal.steerVersion);
    }
  }

  lemma ControlKeepsLifecycle(w: World, c: Control, now: int)
    requires Lifecycle(w.goal)
    ensures Lifecycle(Controlled(w, c, now).goal)
  {
  }

  lemma ControlIsTold(w: World, c: Control, now: int)
    requires Inv(w) && Controlled(w, c, now) != w
    ensures Sane(Controlled(w, c, now))
    ensures Told(Controlled(w, c, now)).stalled ==> Told(w).stalled
  {
    var v := Controlled(w, c, now);
    ControlKeepsLifecycle(w, c, now);
    Heard(w, v, ControlEvent(w, c));
    RowsUnder(w, v);
    ControlTies(Told(w), w, c, now);
  }

  /** The journal's summary follows the goal row. */
  lemma ControlTies(s: Summary, w: World, c: Control, now: int)
    requires Tied(s, w) && Controlled(w, c, now) != w
    ensures Tied(Note(w.goal.budget, s, ControlEvent(w, c)), Controlled(w, c, now))
  {
  }

  lemma ControlEvolves(w: World, c: Control, now: int)
    requires Lifecycle(w.goal)
    ensures Evolves(w, Controlled(w, c, now))
    ensures OnlyControls(Controlled(w, c, now).events, |w.events|, |Controlled(w, c, now).events|)
  {
  }

  /** Every control, at any moment, keeps the invariant, and leaves the engine what it relies on. */
  lemma ControlKeepsInv(w: World, c: Control, now: int)
    requires Inv(w)
    ensures Rely(w, Controlled(w, c, now))
  {
    var v := Controlled(w, c, now);
    if v == w {
      RelySelf(w);
    } else {
      ControlIsTold(w, c, now);
      ControlEvolves(w, c, now);
      ReplansKept(w, v);
    }
  }

  lemma {:induction false} ControlsKeepInv(w: World, cs: seq<Control>, now: int)
    requires Inv(w)
    ensures Rely(w, ControlledAll(w, cs, now))
    decreases |cs|
  {
    if cs == [] {
      RelySelf(w);
    } else {
      var v := ControlledAll(w, cs[..|cs| - 1], now);
      ControlsKeepInv(w, cs[..|cs| - 1], now);
      ControlKeepsInv(v, cs[|cs| - 1], now);
      RelyTwice(w, v, ControlledAll(w, cs, now));
    }
  }
}
