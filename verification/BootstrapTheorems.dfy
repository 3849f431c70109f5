/**
 Main results about bootstrap runs, for every sequence of operations from the empty store.
 */
module BootstrapTheorems {
  import opened Options
  import opened BootstrapPlan
  import opened AuditChain
  import opened BootstrapStore
  import opened BootstrapRuns

  // What never changes

  predicate Decided(s: StepState) { s in {Satisfied, Failed, Blocked} }

  predicate RunEvolves(a: Run, b: Run) {
    && b.defs == a.defs && |a.states| == |b.states| && |a.accepted| == |b.accepted|
    && (forall i :: 0 <= i < |a.states| && Decided(a.states[i]) ==> b.states[i] == a.states[i])
    && (forall i :: 0 <= i < |a.accepted| && a.accepted[i].Some? ==> b.accepted[i] == a.accepted[i])
    && (a.state in {RunFailed, Complete} ==> b.state == a.state)
  }

  predicate Evolves(s: Store, t: Store) {
    && s.log <= t.log
    && (forall r :: r in s.runs ==> r in t.runs && RunEvolves(s.runs[r], t.runs[r]))
    && (forall k :: k in s.receipts ==> k in t.receipts && t.receipts[k] == s.receipts[k])
  }

  /** Decided steps keep their state, so a failed or complete run stays so. */
  lemma FinalRunStatesStay(a: seq<StepState>, b: seq<StepState>)
    requires |a| == |b|
    requires forall i :: 0 <= i < |a| && Decided(a[i]) ==> b[i] == a[i]
    ensures RunStateOf(a) in {RunFailed, Complete} ==> RunStateOf(b) == RunStateOf(a)
  {
    if RunStateOf(a) == RunFailed {
      var i :| 0 <= i < |a| && a[i] == Failed;
      assert b[i] == Failed;
    }
  }

  lemma ReconciledRun(d: Digests, s: Store, runId: string, actor: string, at: int)
    requires runId in s.runs && Shaped(s.runs[runId])
    ensures var run, t := s.runs[runId], Reconciled(d, s, runId, actor, at);
      && s.log <= t.log && t.receipts == s.receipts
      && t.runs == s.runs[runId := Concluded(run.(states := Sweep(run.defs, run.states)), at)]
      && Below(run.defs, run.states, Sweep(run.defs, run.states))
  {
    var run := s.runs[runId];
    PromotedStates(d, s, runId, |run.defs|, actor, at);
    SweepIsLeast(run.defs, run.states);
    var swept := run.(states := Sweep(run.defs, run.states));
    Overwrite(s.runs, runId, swept, Concluded(swept, at));
  }

  /** The run whose step i took a result, after reconciling. */
  lemma TakenRunEvolves(d: Digests, run: Run, r: StepResult, i: nat, b: Run)
    requires Rested(run) && i < |run.defs|
    requires Actionable(run.states[i]) && run.accepted[i].None?
    requires b.defs == run.defs && |b.states| == |run.defs| && b.state == RunStateOf(b.states)
    requires b.accepted == run.accepted[i := Some(Acceptance(d.result(r), r))]
    requires Below(run.defs, run.states[i := OutcomeState(r)], b.states)
    ensures RunEvolves(run, b)
  {
    FinalRunStatesStay(run.states, b.states);
  }

  predicate SameButRun(s: Store, t: Store, w: string) {
    && s.runs.Keys <= t.runs.Keys
    && forall q :: q in s.runs && q != w ==> t.runs[q] == s.runs[q]
  }

  lemma EvolvesByRun(s: Store, t: Store, w: string)
    requires s.log <= t.log && SameButRun(s, t, w)
    requires w in s.runs ==> RunEvolves(s.runs[w], t.runs[w])
    requires forall k :: k in s.receipts ==> k in t.receipts && t.receipts[k] == s.receipts[k]
    ensures Evolves(s, t)
  {
    forall q | q in s.runs ensures q in t.runs && RunEvolves(s.runs[q], t.runs[q]) {
      if q != w { assert t.runs[q] == s.runs[q]; }
    }
  }

  lemma AcceptanceEvolves(d: Digests, s: Store, r: StepResult, i: nat, t: Store)
    requires Takes(s, r, i) && Rested(s.runs[r.runId]) && s.runs[r.runId].accepted[i].None?
    requires t == Reconciled(d, AcceptedAt(d, s, r, i), r.runId, "bootstrap", r.observedAt)
    ensures Evolves(s, t)
  {
    var mid := AcceptedAt(d, s, r, i);
    ReconciledRun(d, mid, r.runId, "bootstrap", r.observedAt);
    TakenRunEvolves(d, s.runs[r.runId], r, i, t.runs[r.runId]);
    assert SameButRun(s, t, r.runId);
    EvolvesByRun(s, t, r.runId);
  }

  lemma InitializeEvolves(
      d: Digests, s: Store, runId: string, actor: string, plan: Plan, profile: string, now: int)
    requires Initialize(d, s, runId, actor, plan, profile, now).1 == Created
    ensures Evolves(s, Initialize(d, s, runId, actor, plan, profile, now).0)
  {
    var mid := Opened(d, s, runId, actor, plan, profile, now);
    ReconciledRun(d, mid, runId, actor, now);
    var t := Reconciled(d, mid, runId, actor, now);
    assert SameButRun(s, t, runId);
    EvolvesByRun(s, t, runId);
  }

  lemma EvolvesReflexive(s: Store)
    ensures Evolves(s, s)
  {
  }

  lemma RecordEvolves(d: Digests, s: Store, r: StepResult)
    requires AllShaped(s) && Inv(d, s)
    ensures Evolves(s, Record(d, s, r).0)
  {
    if Check(d, s, r) == Recorded {
      RecordedTakes(d, s, r);
      var run := s.runs[r.runId];
      var i := StepIndex(run.defs, r.stepId);
      assert RunFits(d, s, r.runId) && Rested(run);
      assert StepFits(d, r.runId, run.defs, run.states, run.accepted, i);
      AcceptanceEvolves(d, s, r, i, Record(d, s, r).0);
    } else {
      EvolvesReflexive(s);
    }
  }

  lemma InitializeAlwaysEvolves(
      d: Digests, s: Store, runId: string, actor: string, plan: Plan, profile: string, now: int)
    ensures Evolves(s, Initialize(d, s, runId, actor, plan, profile, now).0)
  {
    if Initialize(d, s, runId, actor, plan, profile, now).1 == Created {
      InitializeEvolves(d, s, runId, actor, plan, profile, now);
    } else {
      EvolvesReflexive(s);
    }
  }

  lemma ApplyEvolves(d: Digests, s: Store, op: Op)
    requires AllShaped(s) && Inv(d, s)
    ensures Evolves(s, Apply(d, s, op))
  {
    match op
    case DoInitialize(runId, actor, plan, profile, now) =>
      InitializeAlwaysEvolves(d, s, runId, actor, plan, profile, now);
    case DoRecord(r) =>
      RecordEvolves(d, s, r);
  }

  lemma EvolvesTransitive(s: Store, t: Store, u: Store)
    requires Evolves(s, t) && Evolves(t, u)
    ensures Evolves(s, u)
  {
    forall r | r in s.runs ensures r in u.runs && RunEvolves(s.runs[r], u.runs[r]) {
      assert RunEvolves(s.runs[r], t.runs[r]) && RunEvolves(t.runs[r], u.runs[r]);
    }
  }

  /** SATISFIED, FAILED and BLOCKED steps never change, FAILED and COMPLETE runs stay so, accepted
      results and receipts are never rewritten and the log only grows. */
  lemma {:induction false} HistoryOnlyGrows(d: Digests, s: Store, ops: seq<Op>)
    requires AllShaped(s) && Inv(d, s)
    ensures Inv(d, Execute(d, s, ops)) && Evolves(s, Execute(d, s, ops))
    decreases |ops|
  {
    if ops == [] {
      EvolvesReflexive(s);
    } else {
      var t := Apply(d, s, ops[0]);
      ApplyKeepsInv(d, s, ops[0]);
      ApplyEvolves(d, s, ops[0]);
      HistoryOnlyGrows(d, t, ops[1..]);
      EvolvesTransitive(s, t, Execute(d, t, ops[1..]));
    }
  }

  // The run invariant

  /** After any operations: active steps have satisfied dependencies, COMPLETE means that every step
      is satisfied, and FAILED that some step failed. */
  lemma RunInvariant(d: Digests, ops: seq<Op>, r: string, i: nat)
    requires var s := Execute(d, EMPTY, ops); r in s.runs && i < |s.runs[r].defs|
    ensures var run := Execute(d, EMPTY, ops).runs[r];
      && Shaped(run)
      && (run.states[i] !in {Pending, Blocked} ==> DepsSatisfied(run.defs, run.states, i))
      && (run.state == Complete <==> forall j :: 0 <= j < |run.states| ==> run.states[j] == Satisfied)
      && (run.state == RunFailed <==> exists j :: 0 <= j < |run.states| && run.states[j] == Failed)
  {
    InvAlways(d, ops);
    var s := Execute(d, EMPTY, ops);
    var run := s.runs[r];
    assert RunFits(d, s, r) && Rested(run);
    assert StepFits(d, r, run.defs, run.states, run.accepted, i);
  }

  /** A satisfied mutating step was planned as not needed, or carries a successful result that was
      executed externally under the capability the plan asked for. */
  lemma SatisfiedMutationsWereAuthorised(d: Digests, ops: seq<Op>, r: string, i: nat)
    requires var s := Execute(d, EMPTY, ops); r in s.runs && i < |s.runs[r].defs|
    requires var run := Execute(d, EMPTY, ops).runs[r];
      Shaped(run) && run.states[i] == Satisfied && run.defs[i].mutating
    ensures var run := Execute(d, EMPTY, ops).runs[r];
      || (run.defs[i].status == NotNeeded && run.accepted[i].None?)
      || (&& run.accepted[i].Some?
          && var result := run.accepted[i].value.result;
             && result.succeeded && result.mode == ExternallyExecuted
             && result.authorization.Some?
             && Some(result.authorization.value.capability) == run.defs[i].capability)
  {
    InvAlways(d, ops);
    var s := Execute(d, EMPTY, ops);
    assert RunFits(d, s, r);
    assert StepFits(d, r, s.runs[r].defs, s.runs[r].states, s.runs[r].accepted, i);
  }

  // Results

  /** A step accepts at most one result, and its receipt carries the digest stored with the step. */
  lemma OneResultPerStep(d: Digests, ops: seq<Op>, k1: string, k2: string)
    requires var s := Execute(d, EMPTY, ops); k1 in s.receipts && k2 in s.receipts
    requires var s := Execute(d, EMPTY, ops);
      s.receipts[k1].runId == s.receipts[k2].runId && s.receipts[k1].stepId == s.receipts[k2].stepId
    ensures k1 == k2
    ensures var s := Execute(d, EMPTY, ops);
      var receipt := s.receipts[k1];
      && receipt.runId in s.runs
      && var run := s.runs[receipt.runId];
         exists i :: 0 <= i < |run.accepted| && run.accepted[i].Some?
                  && run.accepted[i].value.digest == receipt.digest == d.result(run.accepted[i].value.result)
                  && run.accepted[i].value.result.key == k1
  {
    InvAlways(d, ops);
    var s := Execute(d, EMPTY, ops);
    assert ReceiptFits(s, k1) && ReceiptFits(s, k2);
    var r := s.receipts[k1].runId;
    var run := s.runs[r];
    var i := StepIndex(run.defs, s.receipts[k1].stepId);
    assert RunFits(d, s, r);
    assert StepFits(d, r, run.defs, run.states, run.accepted, i);
  }

  /** Recording leaves the receipt of the result. */
  lemma RecordedReceipt(d: Digests, s: Store, r: StepResult)
    requires AllShaped(s) && Check(d, s, r) == Recorded
    ensures var t := Apply(d, s, DoRecord(r));
      r.key in t.receipts && t.receipts[r.key] == Receipt(r.runId, r.stepId, d.result(r))
  {
    ReconciledRun(d, Accepted(d, s, r), r.runId, "bootstrap", r.observedAt);
  }

  /** A receipt answers for its result ever after. */
  lemma ReceiptAnswers(d: Digests, s: Store, r: StepResult)
    requires AllShaped(s) && r.key in s.receipts && s.receipts[r.key] == Receipt(r.runId, r.stepId, d.result(r))
    ensures Record(d, s, r) == (s, Replayed)
  {
  }

  /** Submitting a recorded result again, after any other operations, changes nothing. */
  lemma ReplayIsIdempotent(d: Digests, s: Store, r: StepResult, ops: seq<Op>)
    requires AllShaped(s) && Inv(d, s) && Check(d, s, r) == Recorded
    ensures var t := Execute(d, Apply(d, s, DoRecord(r)), ops); Record(d, t, r) == (t, Replayed)
  {
    var after := Apply(d, s, DoRecord(r));
    RecordedReceipt(d, s, r);
    ApplyKeepsInv(d, s, DoRecord(r));
    HistoryOnlyGrows(d, after, ops);
    ReceiptAnswers(d, Execute(d, after, ops), r);
  }

  /** With collision-free result digests a key answers only for the very result it was used for. */
  lemma KeysAnswerForOneResult(d: Digests, ops: seq<Op>, r: StepResult)
    requires forall a, b {:trigger d.result(a), d.result(b)} :: d.result(a) == d.result(b) ==> a == b
    requires Check(d, Execute(d, EMPTY, ops), r) == Replayed
    ensures var s := Execute(d, EMPTY, ops);
      && r.runId in s.runs
      && exists i :: 0 <= i < |s.runs[r.runId].accepted|
                  && s.runs[r.runId].accepted[i] == Some(Acceptance(d.result(r), r))
  {
    var s := Execute(d, EMPTY, ops);
    OneResultPerStep(d, ops, r.key, r.key);
  }

  // The audit log

  /** Every run's chain verifies, and the chain alone determines the state of every step. */
  lemma AuditTellsTheStates(d: Digests, ops: seq<Op>, r: string)
    ensures Verifies(d.audit, r, Project(Execute(d, EMPTY, ops).log, r))
    ensures var s := Execute(d, EMPTY, ops);
      if r in s.runs then Replay(s.runs[r].defs, Project(s.log, r)) == s.runs[r].states
      else Project(s.log, r) == []
  {
    InvAlways(d, ops);
    var s := Execute(d, EMPTY, ops);
    assert LogFits(d, s, r);
    if r in s.runs {
      assert RunFits(d, s, r);
    }
  }
}
