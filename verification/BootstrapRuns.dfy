/**
 What holds of every bootstrap store after any sequence of operations on any number of runs
 (bootstrap/lifecycle.py): step and run invariants, permanence of decided steps, idempotent and
 authorised results, verifying audit chains from which the step states can be replayed, and the
 exact condition under which a run can be completed.
 */
module BootstrapRuns {
  import opened Options
  import opened BootstrapPlan
  import opened AuditChain
  import opened BootstrapStore

  datatype Op =
    | DoInitialize(runId: string, actor: string, plan: Plan, profile: string, now: int)
    | DoRecord(result: StepResult)

  lemma InitializeIsShaped(
      d: Digests, s: Store, runId: string, actor: string, plan: Plan, profile: string, now: int)
    requires AllShaped(s)
    ensures AllShaped(Initialize(d, s, runId, actor, plan, profile, now).0)
  {
    if Initialize(d, s, runId, actor, plan, profile, now).1 == Created {
      ReconciledIsShaped(d, Opened(d, s, runId, actor, plan, profile, now), runId, actor, now);
    }
  }

  lemma RecordIsShaped(d: Digests, s: Store, r: StepResult)
    requires AllShaped(s)
    ensures AllShaped(Record(d, s, r).0)
  {
    if Check(d, s, r) == Recorded {
      ReconciledIsShaped(d, Accepted(d, s, r), r.runId, "bootstrap", r.observedAt);
    }
  }

  function Apply(d: Digests, s: Store, op: Op): (t: Store)
    requires AllShaped(s)
    ensures AllShaped(t)
  {
    match op
    case DoInitialize(runId, actor, plan, profile, now) =>
      InitializeIsShaped(d, s, runId, actor, plan, profile, now);
      Initialize(d, s, runId, actor, plan, profile, now).0
    case DoRecord(result) =>
      RecordIsShaped(d, s, result);
      Record(d, s, result).0
  }

  function Execute(d: Digests, s: Store, ops: seq<Op>): (t: Store)
    requires AllShaped(s)
    ensures AllShaped(t)
    decreases |ops|
  {
    if ops == [] then s else Execute(d, Apply(d, s, ops[0]), ops[1..])
  }

  const EMPTY := Store(map[], map[], [])

  // The step invariant

  predicate Authorised(def: StepDef, r: StepResult) {
    if def.mutating then
      && r.mode == ExternallyExecuted
      && r.authorization.Some?
      && Some(r.authorization.value.capability) == def.capability
    else r.mode == ObservedOnly
  }

  ghost predicate AcceptanceFits(d: Digests, runId: string, def: StepDef, a: Acceptance) {
    && a.digest == d.result(a.result)
    && a.result.runId == runId && a.result.stepId == def.id
    && Authorised(def, a.result)
  }

  /** What is true of step i at all times. */
  ghost predicate StepFits(
      d: Digests, runId: string, defs: seq<StepDef>, st: seq<StepState>, acc: seq<Option<Acceptance>>, i: nat)
    requires |st| == |defs| == |acc| && i < |defs|
  {
    && (st[i] == Satisfied ==>
          if acc[i].Some? then acc[i].value.result.succeeded else defs[i].status == NotNeeded)
    && (st[i] == Failed ==> acc[i].Some? && !acc[i].value.result.succeeded)
    && (acc[i].Some? ==> st[i] in {Satisfied, Failed} && AcceptanceFits(d, runId, defs[i], acc[i].value))
    && (st[i] !in {Pending, Blocked} ==> DepsSatisfied(defs, st, i))
    && (st[i] == Blocked <==> i == 0 && defs[0].status == PlannedBlocked)
    && (SelfDependent(defs[i]) ==> st[i] in {Pending, Blocked})
  }

  ghost predicate Fits(
      d: Digests, runId: string, defs: seq<StepDef>, st: seq<StepState>, acc: seq<Option<Acceptance>>)
    requires |st| == |defs| == |acc|
  {
    forall i :: 0 <= i < |defs| ==> StepFits(d, runId, defs, st, acc, i)
  }

  /** Turning one unsatisfied step satisfied keeps every dependency that was satisfied. */
  lemma DepsStaySatisfied(defs: seq<StepDef>, s: seq<StepState>, t: seq<StepState>, i: nat)
    requires |s| == |defs| == |t| && i < |defs|
    requires forall j :: 0 <= j < |defs| && s[j] == Satisfied ==> t[j] == Satisfied
    requires DepsSatisfied(defs, s, i)
    ensures DepsSatisfied(defs, t, i)
  {
    forall d | d in defs[i].deps ensures DepSatisfied(defs, t, d) {
      assert DepSatisfied(defs, s, d);
    }
  }

  lemma SelfDependentNeverEnabled(defs: seq<StepDef>, st: seq<StepState>, i: nat)
    requires |st| == |defs| && i < |defs| && DistinctIds(defs)
    requires SelfDependent(defs[i]) && DepsSatisfied(defs, st, i)
    ensures st[i] == Satisfied
  {
    assert DepSatisfied(defs, st, defs[i].id);
  }

  /** Changing the state of step i from undecided keeps the invariant of every other step. */
  lemma OthersKeepFitting(
      d: Digests, runId: string, defs: seq<StepDef>, s: seq<StepState>, t: seq<StepState>,
      a: seq<Option<Acceptance>>, b: seq<Option<Acceptance>>, i: nat, j: nat)
    requires |s| == |defs| == |t| == |a| == |b| && i < |defs| && j < |defs| && i != j
    requires s[i] != Satisfied && t == s[i := t[i]] && b == a[i := b[i]]
    requires StepFits(d, runId, defs, s, a, j)
    ensures StepFits(d, runId, defs, t, b, j)
  {
    if s[j] !in {Pending, Blocked} {
      DepsStaySatisfied(defs, s, t, j);
    }
  }

  lemma PromoteKeepsFitting(
      d: Digests, runId: string, defs: seq<StepDef>, st: seq<StepState>, acc: seq<Option<Acceptance>>, i: nat)
    requires |st| == |defs| == |acc| && i < |defs| && DistinctIds(defs)
    requires Fits(d, runId, defs, st, acc) && Enabled(defs, st, i)
    ensures Fits(d, runId, defs, st[i := PromotedState(defs[i])], acc)
  {
    var t := st[i := PromotedState(defs[i])];
    forall j | 0 <= j < |defs| ensures StepFits(d, runId, defs, t, acc, j) {
      assert StepFits(d, runId, defs, st, acc, j);
      if j == i {
        if SelfDependent(defs[i]) { SelfDependentNeverEnabled(defs, st, i); }
        DepsStaySatisfied(defs, st, t, i);
      } else {
        assert acc == acc[i := acc[i]];
        OthersKeepFitting(d, runId, defs, st, t, acc, acc, i, j);
      }
    }
  }

  lemma AcceptKeepsFitting(
      d: Digests, defs: seq<StepDef>, st: seq<StepState>, acc: seq<Option<Acceptance>>, i: nat, r: StepResult)
    requires |st| == |defs| == |acc| && i < |defs| && DistinctIds(defs)
    requires Fits(d, r.runId, defs, st, acc)
    requires Actionable(st[i]) && defs[i].id == r.stepId && ModeObjection(defs[i], r).None?
    ensures Fits(d, r.runId, defs, st[i := OutcomeState(r)], acc[i := Some(Acceptance(d.result(r), r))])
  {
    var t, b := st[i := OutcomeState(r)], acc[i := Some(Acceptance(d.result(r), r))];
    forall j | 0 <= j < |defs| ensures StepFits(d, r.runId, defs, t, b, j) {
      assert StepFits(d, r.runId, defs, st, acc, j);
      if j == i {
        DepsStaySatisfied(defs, st, t, i);
      } else {
        OthersKeepFitting(d, r.runId, defs, st, t, acc, b, i, j);
      }
    }
  }

  // Replaying the log

  function ReplayOne(defs: seq<StepDef>, st: seq<StepState>, draft: Draft): (t: seq<StepState>)
    requires |st| == |defs|
    ensures |t| == |defs|
  {
    if draft.stepId.None? || StepIndex(defs, draft.stepId.value) == |defs| then st
    else
      var i := StepIndex(defs, draft.stepId.value);
      match draft.kind
      case RunInitialized => st
      case StepNotNeeded => st[i := Satisfied]
      case StepActionable => st[i := PromotedState(defs[i])]
      case ResultRecorded =>
        st[i := if draft.payload.Outcome? && draft.payload.succeeded then Satisfied else Failed]
  }

  /** The step states as told by the audit events of a run alone. */
  function Replay(defs: seq<StepDef>, events: seq<Event>): (t: seq<StepState>)
    ensures |t| == |defs|
  {
    if events == [] then InitialStates(defs)
    else ReplayOne(defs, Replay(defs, events[..|events| - 1]), events[|events| - 1].draft)
  }

  lemma StepIndexOf(defs: seq<StepDef>, i: nat)
    requires i < |defs| && DistinctIds(defs)
    ensures StepIndex(defs, defs[i].id) == i
  {
  }

  lemma ReplayAppend(h: Hashes, log: seq<Event>, draft: Draft, defs: seq<StepDef>)
    ensures Replay(defs, Project(Append(h, log, draft), draft.runId))
         == ReplayOne(defs, Replay(defs, Project(log, draft.runId)), draft)
  {
    ProjectAppend(h, log, draft, draft.runId);
    var events := Project(log, draft.runId);
    var event := Append(h, log, draft)[|log|];
    assert (events + [event])[..|events|] == events;
  }

  // The store invariant

  ghost predicate RunFits(d: Digests, s: Store, r: string)
    requires r in s.runs
  {
    var run := s.runs[r];
    && Shaped(run)
    && Fits(d, r, run.defs, run.states, run.accepted)
    && Replay(run.defs, Project(s.log, r)) == run.states
  }

  ghost predicate ReceiptFits(s: Store, key: string)
    requires key in s.receipts
  {
    var receipt := s.receipts[key];
    && receipt.runId in s.runs
    && Shaped(s.runs[receipt.runId])
    && var run := s.runs[receipt.runId];
       var i := StepIndex(run.defs, receipt.stepId);
       && i < |run.defs|
       && run.accepted[i].Some?
       && run.accepted[i].value.result.key == key
       && run.accepted[i].value.digest == receipt.digest
  }

  ghost predicate AcceptedHasReceipt(s: Store, r: string, i: nat)
    requires r in s.runs && i < |s.runs[r].accepted|
  {
    var a := s.runs[r].accepted[i];
    a.Some? ==>
      && a.value.result.key in s.receipts
      && s.receipts[a.value.result.key] == Receipt(r, a.value.result.stepId, a.value.digest)
  }

  ghost predicate LogFits(d: Digests, s: Store, r: string) {
    && Verifies(d.audit, r, Project(s.log, r))
    && (r !in s.runs ==> Project(s.log, r) == [])
  }

  ghost predicate RunsFit(d: Digests, s: Store) {
    forall r :: r in s.runs ==> RunFits(d, s, r)
  }

  ghost predicate ReceiptsFit(s: Store) {
    && (forall key :: key in s.receipts ==> ReceiptFits(s, key))
    && forall r, i :: r in s.runs && 0 <= i < |s.runs[r].accepted| ==> AcceptedHasReceipt(s, r, i)
  }

  ghost predicate LogsFit(d: Digests, s: Store) {
    forall r :: LogFits(d, s, r)
  }

  /** Everything but the settledness of the run being worked on. */
  ghost predicate Loose(d: Digests, s: Store) {
    RunsFit(d, s) && ReceiptsFit(s) && LogsFit(d, s)
  }

  /** The run rests: nothing is left to promote and its own columns agree with its steps. */
  ghost predicate Rested(run: Run) {
    && Shaped(run)
    && Settled(run.defs, run.states)
    && run.state == RunStateOf(run.states)
    && run.phase == PhaseOf(run.defs, run.states)
    && (run.completedAt.Some? <==> run.state == Complete)
  }

  ghost predicate Inv(d: Digests, s: Store) {
    && Loose(d, s)
    && forall r :: r in s.runs ==> Rested(s.runs[r])
  }

  /** t differs from s in run w alone, and one event of w was written. */
  ghost predicate Writes(d: Digests, s: Store, t: Store, w: string, draft: Draft) {
    && draft.runId == w && t.log == Append(d.audit, s.log, draft)
    && w in t.runs
    && forall q :: q != w ==> (q in t.runs <==> q in s.runs) && (q in s.runs ==> t.runs[q] == s.runs[q])
  }

  lemma LogsKeepFitting(d: Digests, s: Store, t: Store, w: string, draft: Draft)
    requires Writes(d, s, t, w, draft) && LogsFit(d, s)
    ensures LogsFit(d, t)
  {
    forall r ensures LogFits(d, t, r) {
      assert LogFits(d, s, r);
      AppendVerifies(d.audit, s.log, draft, r);
      ProjectAppend(d.audit, s.log, draft, r);
    }
  }

  lemma RunsKeepFitting(d: Digests, s: Store, t: Store, w: string, draft: Draft)
    requires Writes(d, s, t, w, draft) && RunsFit(d, s)
    requires RunFits(d, t, w)
    ensures RunsFit(d, t)
  {
    forall r | r in t.runs ensures RunFits(d, t, r) {
      if r != w {
        assert RunFits(d, s, r);
        ProjectAppend(d.audit, s.log, draft, r);
      }
    }
  }

  /** Receipts depend on the plans and the accepted results only. */
  lemma ReceiptsKeepFitting(s: Store, t: Store)
    requires ReceiptsFit(s) && t.receipts == s.receipts && s.runs.Keys <= t.runs.Keys
    requires forall r :: r in s.runs ==>
      && t.runs[r].defs == s.runs[r].defs && t.runs[r].accepted == s.runs[r].accepted
      && |t.runs[r].states| == |s.runs[r].states|
    requires forall r, i :: r in t.runs && r !in s.runs && 0 <= i < |t.runs[r].accepted| ==>
      t.runs[r].accepted[i].None?
    ensures ReceiptsFit(t)
  {
    forall key | key in t.receipts ensures ReceiptFits(t, key) {
      assert ReceiptFits(s, key);
    }
    forall r, j | r in t.runs && 0 <= j < |t.runs[r].accepted| ensures AcceptedHasReceipt(t, r, j) {
      if r in s.runs { assert AcceptedHasReceipt(s, r, j); }
    }
  }

  lemma PromotedRunFits(d: Digests, s: Store, runId: string, i: nat, actor: string, at: int)
    requires runId in s.runs && RunFits(d, s, runId) && i < |s.runs[runId].defs|
    requires Enabled(s.runs[runId].defs, s.runs[runId].states, i)
    ensures RunFits(d, PromotedAt(d, s, runId, i, actor, at), runId)
  {
    var run := s.runs[runId];
    PromoteKeepsFitting(d, runId, run.defs, run.states, run.accepted, i);
    ReplayAppend(d.audit, s.log, PromotionDraft(runId, run.defs[i], actor, at), run.defs);
    StepIndexOf(run.defs, i);
  }

  lemma PromotedAtKeepsLoose(d: Digests, s: Store, runId: string, i: nat, actor: string, at: int)
    requires Loose(d, s) && runId in s.runs && Shaped(s.runs[runId]) && i < |s.runs[runId].defs|
    requires Enabled(s.runs[runId].defs, s.runs[runId].states, i)
    ensures Loose(d, PromotedAt(d, s, runId, i, actor, at))
  {
    var t := PromotedAt(d, s, runId, i, actor, at);
    var draft := PromotionDraft(runId, s.runs[runId].defs[i], actor, at);
    PromotedRunFits(d, s, runId, i, actor, at);
    RunsKeepFitting(d, s, t, runId, draft);
    ReceiptsKeepFitting(s, t);
    LogsKeepFitting(d, s, t, runId, draft);
  }

  lemma PromotionKeepsLoose(d: Digests, s: Store, runId: string, i: nat, actor: string, at: int)
    requires HasSteps(s, runId) && i < |s.runs[runId].defs|
    ensures Loose(d, s) ==> Loose(d, PromoteOne(d, s, runId, i, actor, at))
  {
    if Loose(d, s) && Enabled(s.runs[runId].defs, s.runs[runId].states, i) {
      assert RunFits(d, s, runId);
      PromotedAtKeepsLoose(d, s, runId, i, actor, at);
    }
  }

  lemma PromotedToKeepsLoose(d: Digests, s: Store, runId: string, n: nat, actor: string, at: int)
    requires HasSteps(s, runId) && n <= |s.runs[runId].defs|
    ensures Loose(d, s) ==> Loose(d, PromotedTo(d, s, runId, n, actor, at))
  {
    if Loose(d, s) {
      forall t, i: nat | HasSteps(t, runId) && i < |t.runs[runId].defs| && Loose(d, t)
        ensures Loose(d, PromoteOne(d, t, runId, i, actor, at))
      {
        PromotionKeepsLoose(d, t, runId, i, actor, at);
      }
      PassKeeps(d, s, runId, n, actor, at, (t: Store) => Loose(d, t));
    }
  }

  lemma ConcludedKeepsLoose(d: Digests, s: Store, runId: string, at: int)
    requires Loose(d, s) && runId in s.runs && Shaped(s.runs[runId])
    ensures Loose(d, s.(runs := s.runs[runId := Concluded(s.runs[runId], at)]))
  {
    var t := s.(runs := s.runs[runId := Concluded(s.runs[runId], at)]);
    forall r | r in t.runs ensures RunFits(d, t, r) {
      assert RunFits(d, s, r);
    }
    ReceiptsKeepFitting(s, t);
    forall r ensures LogFits(d, t, r) {
      assert LogFits(d, s, r);
    }
  }

  /** Reconciling restores the full invariant from the loose one. */
  lemma ReconciledRestores(d: Digests, s: Store, runId: string, actor: string, at: int)
    requires Loose(d, s) && runId in s.runs && Shaped(s.runs[runId])
    requires forall r :: r in s.runs && r != runId ==> Rested(s.runs[r])
    ensures Inv(d, Reconciled(d, s, runId, actor, at))
  {
    var run, t := s.runs[runId], Promoted(d, s, runId, actor, at);
    PromotedToKeepsLoose(d, s, runId, |run.defs|, actor, at);
    PromotedStates(d, s, runId, |run.defs|, actor, at);
    SweepSettles(run.defs, run.states);
    ConcludedKeepsLoose(d, t, runId, at);
  }

  /** Ready to be reconciled: the invariant, but for the settledness of run w. */
  ghost predicate InWork(d: Digests, s: Store, w: string) {
    && Loose(d, s) && w in s.runs && Shaped(s.runs[w])
    && forall r :: r in s.runs && r != w ==> Rested(s.runs[r])
  }

  lemma WorkEnds(d: Digests, s: Store, w: string, actor: string, at: int)
    requires HasSteps(s, w)
    ensures InWork(d, s, w) ==> Inv(d, Reconciled(d, s, w, actor, at))
  {
    if InWork(d, s, w) {
      ReconciledRestores(d, s, w, actor, at);
    }
  }

  lemma OpenedRunFits(
      d: Digests, s: Store, runId: string, actor: string, plan: Plan, profile: string, now: int)
    requires LogFits(d, s, runId) && runId !in s.runs && Admissible(plan)
    ensures RunFits(d, Opened(d, s, runId, actor, plan, profile, now), runId)
  {
    ReplayAppend(d.audit, s.log, InitialDraft(d, runId, actor, plan, profile, now), plan.steps);
  }

  lemma OpenedKeepsLoose(
      d: Digests, s: Store, runId: string, actor: string, plan: Plan, profile: string, now: int)
    requires Loose(d, s) && runId !in s.runs && Admissible(plan)
    ensures Loose(d, Opened(d, s, runId, actor, plan, profile, now))
  {
    var t := Opened(d, s, runId, actor, plan, profile, now);
    var draft := InitialDraft(d, runId, actor, plan, profile, now);
    assert LogFits(d, s, runId);
    OpenedRunFits(d, s, runId, actor, plan, profile, now);
    RunsKeepFitting(d, s, t, runId, draft);
    ReceiptsKeepFitting(s, t);
    LogsKeepFitting(d, s, t, runId, draft);
  }

  /** Step i of the result's run may take the result. */
  predicate Takes(s: Store, r: StepResult, i: nat) {
    && r.runId in s.runs && Shaped(s.runs[r.runId])
    && r.key !in s.receipts
    && i < |s.runs[r.runId].defs|
    && s.runs[r.runId].defs[i].id == r.stepId
    && Actionable(s.runs[r.runId].states[i])
    && ModeObjection(s.runs[r.runId].defs[i], r).None?
  }

  lemma RecordedTakes(d: Digests, s: Store, r: StepResult)
    requires AllShaped(s) && Check(d, s, r) == Recorded
    ensures Takes(s, r, StepIndex(s.runs[r.runId].defs, r.stepId))
  {
  }

  lemma OtherReceiptsFit(d: Digests, s: Store, r: StepResult, i: nat, key: string)
    requires Takes(s, r, i) && s.runs[r.runId].accepted[i].None?
    requires key in s.receipts && ReceiptFits(s, key)
    ensures key in AcceptedAt(d, s, r, i).receipts && ReceiptFits(AcceptedAt(d, s, r, i), key)
  {
    var t := AcceptedAt(d, s, r, i);
    assert key != r.key && t.receipts[key] == s.receipts[key];
  }

  lemma NewReceiptFits(d: Digests, s: Store, r: StepResult, i: nat)
    requires Takes(s, r, i)
    ensures ReceiptFits(AcceptedAt(d, s, r, i), r.key)
  {
    StepIndexOf(s.runs[r.runId].defs, i);
  }

  lemma AcceptedKeepsReceipts(d: Digests, s: Store, r: StepResult, i: nat)
    requires ReceiptsFit(s) && Takes(s, r, i) && s.runs[r.runId].accepted[i].None?
    ensures ReceiptsFit(AcceptedAt(d, s, r, i))
  {
    var t := AcceptedAt(d, s, r, i);
    NewReceiptFits(d, s, r, i);
    forall key | key in t.receipts && key != r.key ensures ReceiptFits(t, key) {
      OtherReceiptsFit(d, s, r, i, key);
    }
    forall q, j | q in t.runs && 0 <= j < |t.runs[q].accepted| ensures AcceptedHasReceipt(t, q, j) {
      assert AcceptedHasReceipt(s, q, j);
    }
  }

  lemma AcceptedRunFits(d: Digests, s: Store, r: StepResult, i: nat)
    requires Takes(s, r, i) && RunFits(d, s, r.runId)
    ensures RunFits(d, AcceptedAt(d, s, r, i), r.runId)
    ensures s.runs[r.runId].accepted[i].None?
  {
    var run := s.runs[r.runId];
    assert StepFits(d, r.runId, run.defs, run.states, run.accepted, i);
    AcceptKeepsFitting(d, run.defs, run.states, run.accepted, i, r);
    ReplayAppend(d.audit, s.log, ResultDraft(d, r), run.defs);
    StepIndexOf(run.defs, i);
  }

  lemma AcceptedKeepsLoose(d: Digests, s: Store, r: StepResult, i: nat)
    requires Loose(d, s) && Takes(s, r, i)
    ensures Loose(d, AcceptedAt(d, s, r, i))
  {
    var t, draft := AcceptedAt(d, s, r, i), ResultDraft(d, r);
    AcceptedRunFits(d, s, r, i);
    RunsKeepFitting(d, s, t, r.runId, draft);
    AcceptedKeepsReceipts(d, s, r, i);
    LogsKeepFitting(d, s, t, r.runId, draft);
  }

  /** Work on one run leaves the others at rest. */
  lemma OthersRest(d: Digests, s: Store, t: Store, w: string)
    requires Inv(d, s)
    requires forall q :: q != w ==> (q in t.runs <==> q in s.runs)
    requires forall q :: q != w && q in s.runs && q in t.runs ==> t.runs[q] == s.runs[q]
    ensures forall r :: r in t.runs && r != w ==> Rested(t.runs[r])
  {
  }

  lemma OpenedInWork(
      d: Digests, s: Store, runId: string, actor: string, plan: Plan, profile: string, now: int)
    requires runId !in s.runs && Admissible(plan)
    ensures Inv(d, s) ==> InWork(d, Opened(d, s, runId, actor, plan, profile, now), runId)
  {
    if Inv(d, s) {
      OpenedKeepsLoose(d, s, runId, actor, plan, profile, now);
      OthersRest(d, s, Opened(d, s, runId, actor, plan, profile, now), runId);
    }
  }

  lemma InitializeKeepsInv(
      d: Digests, s: Store, runId: string, actor: string, plan: Plan, profile: string, now: int)
    requires Inv(d, s)
    ensures Inv(d, Initialize(d, s, runId, actor, plan, profile, now).0)
  {
    if Initialize(d, s, runId, actor, plan, profile, now).1 == Created {
      OpenedInWork(d, s, runId, actor, plan, profile, now);
      WorkEnds(d, Opened(d, s, runId, actor, plan, profile, now), runId, actor, now);
    }
  }

  lemma AcceptedIsLoose(d: Digests, s: Store, r: StepResult)
    requires AllShaped(s) && Check(d, s, r) == Recorded
    ensures Loose(d, s) ==> Loose(d, Accepted(d, s, r))
  {
    RecordedTakes(d, s, r);
    if Loose(d, s) {
      AcceptedKeepsLoose(d, s, r, StepIndex(s.runs[r.runId].defs, r.stepId));
    }
  }

  lemma AcceptedInWork(d: Digests, s: Store, r: StepResult)
    requires AllShaped(s) && Check(d, s, r) == Recorded
    ensures Inv(d, s) ==> InWork(d, Accepted(d, s, r), r.runId)
  {
    AcceptedIsLoose(d, s, r);
    if Inv(d, s) {
      OthersRest(d, s, Accepted(d, s, r), r.runId);
    }
  }

  lemma RecordKeepsInv(d: Digests, s: Store, r: StepResult)
    requires AllShaped(s) && Inv(d, s)
    ensures Inv(d, Record(d, s, r).0)
  {
    if Check(d, s, r) == Recorded {
      AcceptedInWork(d, s, r);
      WorkEnds(d, Accepted(d, s, r), r.runId, "bootstrap", r.observedAt);
    }
  }

  lemma ApplyKeepsInv(d: Digests, s: Store, op: Op)
    requires AllShaped(s) && Inv(d, s)
    ensures Inv(d, Apply(d, s, op))
  {
    match op
    case DoInitialize(runId, actor, plan, profile, now) =>
      InitializeKeepsInv(d, s, runId, actor, plan, profile, now);
    case DoRecord(result) =>
      RecordKeepsInv(d, s, result);
  }

  lemma {:induction false} InvFrom(d: Digests, s: Store, ops: seq<Op>)
    requires AllShaped(s) && Inv(d, s)
    ensures Inv(d, Execute(d, s, ops))
    decreases |ops|
  {
    if ops != [] {
      ApplyKeepsInv(d, s, ops[0]);
      InvFrom(d, Apply(d, s, ops[0]), ops[1..]);
    }
  }

  /** The invariant holds after every sequence of operations on any number of runs. */
  lemma InvAlways(d: Digests, ops: seq<Op>)
    ensures Inv(d, Execute(d, EMPTY, ops))
  {
    forall r ensures LogFits(d, EMPTY, r) {}
    InvFrom(d, EMPTY, ops);
  }
}
