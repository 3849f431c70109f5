/**
 Every transaction of the iteration engine keeps the invariant of the goal's rows and journal.
 */
module GoalSteps {
  import opened Options
  import opened GoalRows
  import opened GoalJournal
  import opened GoalInvariant

  /** The one row that an engine works on. */
  predicate Active(w: World, i: nat) {
    i == |w.iterations| - 1 && !Finished(w.iterations[i])
  }

  ghost predicate Steps(w: World, v: World) { Inv(v) && Evolves(w, v) }

  lemma ActiveIsLast(w: World)
    requires Inv(w)
    ensures ActiveIteration(w.iterations).Some? ==> Active(w, ActiveIteration(w.iterations).value)
    ensures ActiveIteration(w.iterations).None? ==> w.iterations == [] || Finished(w.iterations[|w.iterations| - 1])
  {
    if w.iterations != [] && Finished(w.iterations[|w.iterations| - 1]) {
      NoneActive(w.iterations);
    }
  }

  lemma {:induction false} NoneActive(rows: seq<Iteration>)
    requires forall i :: 0 <= i < |rows| ==> Finished(rows[i])
    ensures ActiveIteration(rows).None?
  {
    if rows != [] {
      NoneActive(rows[..|rows| - 1]);
    }
  }

  /** Rewriting the last row keeps what the rows promise, if the row itself does. */
  lemma RowWritten(w: World, v: World, i: nat, row: Iteration)
    requires Rows(w) && Active(w, i)
    requires v.iterations == w.iterations[i := row] && v.steers == w.steers
    requires v.goal.iterationCount == w.goal.iterationCount && v.goal.steerVersion == w.goal.steerVersion
    requires v.goal.state.Created? ==> w.goal.state.Created?
    requires v.goal.taskCount == w.goal.taskCount + |row.actions| - |w.iterations[i].actions|
    requires RowFits(row, i + 1, w.goal.steerVersion)
    ensures Rows(v)
  {
    assert v.iterations[..i] == w.iterations[..i];
    forall k | 0 <= k < |v.iterations|
      ensures RowFits(v.iterations[k], k + 1, v.goal.steerVersion)
    {
      assert k < i ==> RowFits(w.iterations[k], k + 1, w.goal.steerVersion);
    }
  }

  lemma RowOf(w: World, i: nat)
    requires Inv(w) && i < |w.iterations|
    ensures RowFits(w.iterations[i], i + 1, w.goal.steerVersion)
    ensures Sound(w.goal.budget, Told(w))
  {
    SummariesAreSound(w.goal.budget, w.events, |w.events|);
  }

  lemma StartKeepsInv(w: World, now: int)
    requires Inv(w)
    ensures Steps(w, Started(w, now))
  {
    if w.goal.state.Created? {
      Heard(w, Started(w, now), GoalStarted);
      RowsUnder(w, Started(w, now));
      ReplansKept(w, Started(w, now));
    }
  }

  lemma BegunRowsFit(w: World)
    requires Rows(w) && (w.iterations == [] || Finished(w.iterations[|w.iterations| - 1]))
    requires !w.goal.state.Created?
    ensures Rows(Begun(w))
  {
    var v := Begun(w);
    assert v.iterations[..|w.iterations|] == w.iterations;
    forall k | 0 <= k < |v.iterations|
      ensures RowFits(v.iterations[k], k + 1, v.goal.steerVersion)
    {
      assert k < |w.iterations| ==> RowFits(w.iterations[k], k + 1, w.goal.steerVersion);
    }
  }

  lemma BegunEvolves(w: World)
    ensures Evolves(w, Begun(w))
  {
  }

  /** A new iteration begins when none is active and the iteration budget is not used up. */
  lemma BeginKeepsInv(w: World)
    requires Inv(w) && w.goal.iterationCount < w.goal.budget.maxIterations
    requires w.goal.failureCount < w.goal.budget.maxFailures && !w.goal.state.Created?
    requires w.iterations == [] || Finished(w.iterations[|w.iterations| - 1])
    requires Told(w).stalled ==> Terminal(w.goal.state)
    ensures Steps(w, Begun(w)) && Active(Begun(w), |w.iterations|)
    ensures Begun(w).iterations[|w.iterations|].evaluation.None? && Told(Begun(w)).stalled == Told(w).stalled
  {
    Heard(w, Begun(w), IterationStarted(w.goal.iterationCount + 1));
    BegunRowsFit(w);
    BegunEvolves(w);
    ReplansKept(w, Begun(w));
  }

  lemma PhaseKeepsInv(w: World, i: nat, phase: Phase)
    requires Inv(w) && Active(w, i)
    requires phase.Done? || phase.Interrupted? ==> !Told(w).stalled || Terminal(w.goal.state)
    ensures Steps(w, Reset(w, i, phase))
  {
    RowOf(w, i);
    RowWritten(w, Reset(w, i, phase), i, w.iterations[i].(phase := phase));
    ReplansKept(w, Reset(w, i, phase));
  }

  /** Interrupting a phase because guidance is newer than it. */
  lemma InterruptKeepsInv(w: World, i: nat, expected: int)
    requires Inv(w) && Active(w, i) && expected < w.goal.steerVersion
    requires Told(w).stalled ==> Terminal(w.goal.state)
    ensures Steps(w, Interrupt(w, i, expected)) && Told(Interrupt(w, i, expected)) == Told(w)
  {
    RowOf(w, i);
    var v := Interrupt(w, i, expected);
    Heard(w, v, ReevaluationScheduled(w.iterations[i].sequence, expected, w.goal.steerVersion));
    RowWritten(w, v, i, w.iterations[i].(phase := Interrupted));
    ReplansKept(w, v);
  }

  lemma EvaluationKeepsInv(w: World, i: nat, e: Evaluation, version: nat)
    requires Inv(w) && Active(w, i) && w.iterations[i].evaluation.None? && ValidEvaluation(e)
    requires version <= w.goal.steerVersion && !Told(w).stalled && !w.goal.state.Terminated?
    ensures Steps(w, EvaluationRecorded(w, i, e, version))
    ensures !Stale(w, version) ==> Active(EvaluationRecorded(w, i, e, version), i)
  {
    RowOf(w, i);
    var v := EvaluationRecorded(w, i, e, version);
    if Stale(w, version) {
      InterruptKeepsInv(w, i, version);
    } else {
      Heard(w, v, Evaluated(w.iterations[i].sequence, e, version));
      RowWritten(w, v, i, w.iterations[i].(evaluation := Some(Checkpoint(e, version, Some(version)))));
      ReplansKept(w, v);
    }
  }

  lemma PlanKeepsInv(w: World, i: nat, keys: seq<string>, version: nat)
    requires Inv(w) && Active(w, i) && w.iterations[i].plan.None? && w.iterations[i].verification.None?
    requires w.iterations[i].evaluation.Some? && w.iterations[i].evaluation.value.value.disposition.Incomplete?
    requires version <= w.goal.steerVersion && 1 <= |keys| && w.goal.taskCount + |keys| <= w.goal.budget.maxTasks
    requires w.goal.noProgress < w.goal.budget.noProgressLimit
    ensures Steps(w, PlanRecorded(w, i, keys, version))
    ensures !Stale(w, version) ==> Active(PlanRecorded(w, i, keys, version), i)
  {
    RowOf(w, i);
    var v := PlanRecorded(w, i, keys, version);
    if Stale(w, version) {
      InterruptKeepsInv(w, i, version);
    } else {
      Heard(w, v, PlanCreated(w.iterations[i].sequence, keys, version));
      RowWritten(w, v, i, w.iterations[i].(phase := PlanReady, plan := Some(keys), actions := PlannedActions(keys)));
      ReplansKept(w, v);
    }
  }

  /** What a verification waits for: a satisfied evaluation, or a plan whose actions have settled. */
  predicate Verifiable(row: Iteration) {
    && row.evaluation.Some? && Settled(row)
    && (row.plan.Some? || row.evaluation.value.value.disposition.Satisfied?)
  }

  lemma VerifiableIsNotStalled(w: World, i: nat)
    requires Inv(w) && Active(w, i) && Verifiable(w.iterations[i])
    ensures !Told(w).stalled
  {
    RowOf(w, i);
  }

  lemma VerificationKeepsInv(w: World, i: nat, v: Verification, version: nat)
    requires Inv(w) && Active(w, i) && Verifiable(w.iterations[i]) && w.iterations[i].verification.None?
    requires ValidVerification(v) && version <= w.goal.steerVersion
    ensures Steps(w, VerificationRecorded(w, i, v, version))
    ensures !Stale(w, version) ==> Active(VerificationRecorded(w, i, v, version), i)
  {
    RowOf(w, i);
    var after := VerificationRecorded(w, i, v, version);
    VerifiableIsNotStalled(w, i);
    if Stale(w, version) {
      InterruptKeepsInv(w, i, version);
    } else {
      Heard(w, after, Verified(w.iterations[i].sequence, v, version));
      RowWritten(w, after, i, w.iterations[i].(verification := Some(Checkpoint(v, version, Some(version)))));
      ReplansKept(w, after);
    }
  }

  predicate Unmet(v: Verification) { !v.satisfied && v.reason.None? }

  /** Replanning reports exactly the actions of the iteration that did not succeed. */
  lemma ReplanKeepsInv(w: World, i: nat, failures: nat)
    requires Inv(w) && Active(w, i) && w.iterations[i].verification.Some?
        && Unmet(w.iterations[i].verification.value.value)
    requires failures == Unsuccessful(w.iterations[i].actions)
    ensures var v := ReplanCompleted(w, i, w.iterations[i].verification.value.value, failures);
            Steps(w, v) && Active(v, i) && !Told(v).stalled
  {
    RowOf(w, i);
    var v := w.iterations[i].verification.value.value;
    var after := ReplanCompleted(w, i, v, failures);
    VerifiableIsNotStalled(w, i);
    Heard(w, after, ReplanRequired(w.iterations[i].sequence, v.fingerprint, failures));
    RowWritten(w, after, i, w.iterations[i].(phase := Replanning));
    ReplansKept(w, after);
  }

  /** A budget guard ends the goal; it only runs when no stalled evaluation is waiting. */
  lemma EndKeepsInv(w: World, reason: Reason, now: int)
    requires Inv(w) && !reason.Success? && (Told(w).stalled ==> Terminal(w.goal.state))
    ensures Steps(w, Ended(w, reason, now))
  {
    if !Terminal(w.goal.state) {
      Heard(w, Ended(w, reason, now), GoalTerminated(reason));
      RowsUnder(w, Ended(w, reason, now));
      ReplansKept(w, Ended(w, reason, now));
    }
  }

  /** What a phase must have to end the goal: for SUCCESS, its own satisfied verification. */
  predicate MayEnd(w: World, i: nat, reason: Reason, expected: int)
    requires i < |w.iterations|
  {
    var row := w.iterations[i];
    && (reason.Success? ==>
          && row.verification.Some? && row.verification.value.value.satisfied
          && row.verification.value.basis == expected)
    && (reason.NoProgress? || !Told(w).stalled)
  }

  lemma CurrentEndKeepsInv(w: World, i: nat, reason: Reason, now: int)
    requires Inv(w) && Active(w, i) && !Terminal(w.goal.state) && MayEnd(w, i, reason, w.goal.steerVersion)
    ensures Steps(w, Reset(Ended(w, reason, now), i, Done))
  {
    RowOf(w, i);
    var v := Reset(Ended(w, reason, now), i, Done);
    Heard(w, v, GoalTerminated(reason));
    RowWritten(w, v, i, w.iterations[i].(phase := Done));
    ReplansKept(w, v);
  }

  /** A phase ends the goal, or is found stale. A stale phase is never a stalled one: what it expects
      is the version of its evaluation, and a steer since then means that nothing is stalled. */
  lemma PhaseEndKeepsInv(w: World, i: nat, reason: Reason, expected: int, now: int)
    requires Inv(w) && Active(w, i) && expected <= w.goal.steerVersion && MayEnd(w, i, reason, expected)
    requires expected < w.goal.steerVersion && Told(w).stalled ==> Terminal(w.goal.state)
    ensures Steps(w, PhaseEnded(w, i, reason, expected, now))
    ensures Told(PhaseEnded(w, i, reason, expected, now)).stalled ==>
        Terminal(PhaseEnded(w, i, reason, expected, now).goal.state)
  {
    if Stale(w, expected) {
      InterruptKeepsInv(w, i, expected);
    } else if !Terminal(w.goal.state) {
      CurrentEndKeepsInv(w, i, reason, now);
    }
  }

  lemma ActionKeepsInv(w: World, i: nat, a: nat, action: Action)
    requires Inv(w) && Active(w, i) && a < |w.iterations[i].actions| && Unsettled(w.iterations[i].actions[a])
    ensures Steps(w, ActionSet(w, i, a, action)) && Active(ActionSet(w, i, a, action), i)
    ensures Told(ActionSet(w, i, a, action)).stalled == Told(w).stalled
  {
    RowOf(w, i);
    var row := w.iterations[i];
    Heard(w, ActionSet(w, i, a, action), ActionChanged(row.sequence, a, action.state));
    RowWritten(w, ActionSet(w, i, a, action), i, row.(actions := row.actions[a := action]));
    ReplansKept(w, ActionSet(w, i, a, action));
  }

  lemma CancellationKeepsInv(w: World, i: nat, a: nat)
    requires Inv(w) && Active(w, i) && w.iterations[i].plan.Some?
    ensures Steps(w, CancellationNoted(w, i, a)) && Told(CancellationNoted(w, i, a)).stalled == Told(w).stalled
  {
    RowOf(w, i);
    Heard(w, CancellationNoted(w, i, a), CancellationRequested(w.iterations[i].sequence, a));
    RowsUnder(w, CancellationNoted(w, i, a));
    ReplansKept(w, CancellationNoted(w, i, a));
  }

  // Checkpoints reloaded after a restart

  /** The steer version that a reloaded checkpoint is fenced with. One without a stored version is
      trusted only if nobody has ever steered; otherwise it gets a version that is never current. */
  function RestoredVersion<T>(c: Checkpoint<T>, version: nat): int {
    if c.recorded.Some? then c.recorded.value else if version > 0 then -1 else 0
  }

  /** A reloaded checkpoint is fenced with the version that its decision was computed from, or with
      one that fails every fence. */
  predicate FencedBy<T>(c: Checkpoint<T>, expected: int) {
    expected == c.basis || (expected == -1 && c.recorded.None?)
  }

  lemma RestoredVersionFences<T>(c: Checkpoint<T>, version: nat)
    requires CheckpointFits(c, version)
    ensures FencedBy(c, RestoredVersion(c, version))
  {
  }

  /** Finding an evaluation stale never hides a stalled goal. */
  lemma StaleIsNotStalled(w: World, i: nat, expected: int)
    requires Inv(w) && Active(w, i) && w.iterations[i].evaluation.Some?
    requires FencedBy(w.iterations[i].evaluation.value, expected) && Stale(w, expected)
    ensures Told(w).stalled ==> Terminal(w.goal.state)
    ensures expected < w.goal.steerVersion
  {
    RowOf(w, i);
  }

  function Unversioned(row: Iteration): Iteration {
    row.(evaluation := match row.evaluation case None => None case Some(c) => Some(c.(recorded := None)),
         verification := match row.verification case None => None case Some(c) => Some(c.(recorded := None)))
  }

  /** The store as a build that kept no versions beside its checkpoints would have left it. */
  function Aged(w: World): (v: World)
    ensures |v.iterations| == |w.iterations|
    ensures forall i :: 0 <= i < |w.iterations| ==> v.iterations[i] == Unversioned(w.iterations[i])
  {
    w.(iterations := seq(|w.iterations|, i requires 0 <= i < |w.iterations| => Unversioned(w.iterations[i])))
  }

  lemma AgedRowsFit(w: World)
    requires Rows(w)
    ensures Rows(Aged(w))
  {
    var v := Aged(w);
    SameActionCount(w.iterations, v.iterations);
    forall k | 0 <= k < |v.iterations|
      ensures RowFits(v.iterations[k], k + 1, v.goal.steerVersion)
    {
      assert RowFits(w.iterations[k], k + 1, w.goal.steerVersion);
    }
  }

  lemma AgedReplans(w: World)
    requires Replans(w)
    ensures Replans(Aged(w))
  {
    var v := Aged(w);
    forall k | 0 <= k < |v.events|
      ensures ReplanFits(v.iterations, v.events, k)
    {
      assert ReplanFits(w.iterations, w.events, k);
    }
  }

  /** A stalled evaluation waits in the last row of a goal that has not ended. */
  predicate StalledOpen(w: World) { Told(w).stalled && !Terminal(w.goal.state) }

  /** Such a store is a good start if and only if it was not left with a stalled evaluation waiting. */
  lemma OlderStoresFit(w: World)
    requires Inv(w)
    ensures Inv(Aged(w)) <==> !StalledOpen(w)
  {
    AgedRowsFit(w);
    AgedReplans(w);
    assert Told(Aged(w)) == Told(w);
  }

  lemma {:induction false} SameActionCount(r: seq<Iteration>, t: seq<Iteration>)
    requires |r| == |t| && forall i :: 0 <= i < |r| ==> |r[i].actions| == |t[i].actions|
    ensures ActionCount(r) == ActionCount(t)
  {
    if r != [] {
      SameActionCount(r[..|r| - 1], t[..|t| - 1]);
    }
  }
}
