/**
 The durable bootstrap store (bootstrap/lifecycle.py): runs, result receipts and the audit log.

 Initialize and Record say what each operation does to the store as a value; the class performs the
 same operations in place, with the while-changed loop of _reconcile.
 */
module BootstrapStore {
  import opened Options
  import opened BootstrapPlan
  import opened AuditChain

  datatype RunState = Active | Waiting | RunFailed | Complete

  datatype Mode = ObservedOnly | ExternallyExecuted
  datatype Authority = Human | Enterprise | PrivilegeBroker | TrustedNode
  datatype Authorization = Authorization(
    grant: string, capability: string, subject: string, verifiedBy: string, authority: Authority)

  datatype StepResult = StepResult(
    runId: string, stepId: string, key: string, succeeded: bool, mode: Mode, actor: string,
    observedAt: int, evidence: string, authorization: Option<Authorization>)

  datatype Acceptance = Acceptance(digest: Digest, result: StepResult)

  datatype Run = Run(
    planDigest: Digest, profileDigest: Digest,
    defs: seq<StepDef>, states: seq<StepState>, accepted: seq<Option<Acceptance>>,
    state: RunState, phase: string, completedAt: Option<int>)

  datatype Receipt = Receipt(runId: string, stepId: string, digest: Digest)

  datatype Store = Store(runs: map<string, Run>, receipts: map<string, Receipt>, log: seq<Event>)

  datatype Digests = Digests(
    audit: Hashes,
    result: StepResult -> Digest,
    plan: Plan -> Digest,
    profile: string -> Digest)

  datatype Refusal =
    | Malformed | DifferentEvidence
    | KeyReused | KeyOfAnotherRun | UnknownStep | AlreadySatisfied | NotActionable
    | DependenciesOpen | NotExternallyExecuted | Unauthorized | WrongCapability | NoVerifier
    | NotObservedOnly

  datatype Verdict = Created | Existing | Recorded | Replayed | Refused(reason: Refusal)

  predicate Shaped(run: Run) {
    && |run.states| == |run.defs| == |run.accepted|
    && run.defs != []
    && WellOrdered(run.defs)
  }

  predicate AllShaped(s: Store) {
    forall r :: r in s.runs ==> Shaped(s.runs[r])
  }

  // The state of a run

  /** The position of the first step that is not satisfied, or the number of steps. */
  function FirstUnsatisfied(st: seq<StepState>): (i: nat)
    ensures i <= |st|
    ensures forall j :: 0 <= j < i ==> st[j] == Satisfied
    ensures i < |st| ==> st[i] != Satisfied
  {
    if st == [] then 0
    else
      var n := |st| - 1;
      var i := FirstUnsatisfied(st[..n]);
      if i < n || st[n] != Satisfied then i else |st|
  }

  function RunStateOf(st: seq<StepState>): (r: RunState)
    ensures r == Complete <==> st != [] && forall i :: 0 <= i < |st| ==> st[i] == Satisfied
    ensures r == RunFailed <==> exists i :: 0 <= i < |st| && st[i] == Failed
  {
    var current := FirstUnsatisfied(st);
    if exists i :: 0 <= i < |st| && st[i] == Failed then RunFailed
    else if st != [] && current == |st| then Complete
    else if current < |st| && st[current] in {AwaitingApproval, AwaitingReview, Blocked} then Waiting
    else Active
  }

  function PhaseOf(defs: seq<StepDef>, st: seq<StepState>): string
    requires |defs| == |st|
  {
    var current := FirstUnsatisfied(st);
    if current < |st| then defs[current].phase else "COMMIT"
  }

  function Concluded(run: Run, at: int): Run
    requires |run.defs| == |run.states|
  {
    run.(state := RunStateOf(run.states),
         phase := PhaseOf(run.defs, run.states),
         completedAt := if RunStateOf(run.states) == Complete then Some(at) else None)
  }

  // Audit drafts

  function StateName(s: StepState): string {
    match s
    case Pending => "pending"
    case Ready => "ready"
    case AwaitingReview => "awaitingReview"
    case AwaitingApproval => "awaitingApproval"
    case Satisfied => "satisfied"
    case Failed => "failed"
    case Blocked => "blocked"
  }

  function InitialDraft(d: Digests, runId: string, actor: string, plan: Plan, profile: string, at: int): Draft {
    Draft(runId, None, RunInitialized, actor,
          "Durable bootstrap run initialized without host mutation",
          Evidence(d.plan(plan), d.profile(profile)), at)
  }

  function PromotionDraft(runId: string, def: StepDef, actor: string, at: int): Draft {
    Draft(runId, Some(def.id),
          if def.status == NotNeeded then StepNotNeeded else StepActionable,
          actor, "Bootstrap step is " + StateName(PromotedState(def)),
          Planned(def.phase, def.action, def.capability), at)
  }

  function OutcomeState(r: StepResult): StepState {
    if r.succeeded then Satisfied else Failed
  }

  function ResultDraft(d: Digests, r: StepResult): Draft {
    Draft(r.runId, Some(r.stepId), ResultRecorded, r.actor,
          "Bootstrap step recorded as " + StateName(OutcomeState(r)),
          Outcome(d.result(r), r.succeeded, r.mode == ExternallyExecuted,
                  if r.authorization.Some? then Some(r.authorization.value.grant) else None),
          r.observedAt)
  }

  // The operations as functions

  predicate HasSteps(s: Store, runId: string) {
    runId in s.runs && |s.runs[runId].states| == |s.runs[runId].defs|
  }

  /** Step i enters its promoted state and the promotion is logged. */
  function PromotedAt(d: Digests, s: Store, runId: string, i: nat, actor: string, at: int): (t: Store)
    requires HasSteps(s, runId) && i < |s.runs[runId].defs|
  {
    var run := s.runs[runId];
    Store(
      s.runs[runId := run.(states := run.states[i := PromotedState(run.defs[i])])],
      s.receipts,
      Append(d.audit, s.log, PromotionDraft(runId, run.defs[i], actor, at)))
  }

  /** Step i is promoted if it can be. */
  function PromoteOne(d: Digests, s: Store, runId: string, i: nat, actor: string, at: int): (t: Store)
    requires HasSteps(s, runId) && i < |s.runs[runId].defs|
    ensures HasSteps(t, runId) && t.runs[runId].defs == s.runs[runId].defs
  {
    if Enabled(s.runs[runId].defs, s.runs[runId].states, i) then PromotedAt(d, s, runId, i, actor, at) else s
  }

  /** The store after a sweep over the first n steps of a run. */
  function PromotedTo(d: Digests, s: Store, runId: string, n: nat, actor: string, at: int): (t: Store)
    requires HasSteps(s, runId) && n <= |s.runs[runId].defs|
    ensures HasSteps(t, runId) && t.runs[runId].defs == s.runs[runId].defs
  {
    if n == 0 then s else PromoteOne(d, PromotedTo(d, s, runId, n - 1, actor, at), runId, n - 1, actor, at)
  }

  function Promoted(d: Digests, s: Store, runId: string, actor: string, at: int): (t: Store)
    requires HasSteps(s, runId)
    ensures HasSteps(t, runId) && t.runs[runId].defs == s.runs[runId].defs
  {
    PromotedTo(d, s, runId, |s.runs[runId].defs|, actor, at)
  }

  /** One promotion in the store is one in the plan; nothing but the states of this run moves. */
  lemma PromotedOnce(d: Digests, s: Store, runId: string, i: nat, actor: string, at: int)
    requires HasSteps(s, runId) && i < |s.runs[runId].defs|
    ensures var run, t := s.runs[runId], PromoteOne(d, s, runId, i, actor, at);
      && t.runs == s.runs[runId := run.(states := Promote(run.defs, run.states, i))]
      && t.receipts == s.receipts && s.log <= t.log
      && (t == s || |t.log| > |s.log|)
  {
    Overwrite(s.runs, runId, s.runs[runId], s.runs[runId]);
  }

  /** Whatever was logged between s and t left fewer steps of the run pending. */
  predicate Drained(s: Store, t: Store, runId: string) {
    && runId in s.runs && runId in t.runs && |s.log| <= |t.log|
    && PendingCount(t.runs[runId].states) + (if |t.log| > |s.log| then 1 else 0) <= PendingCount(s.runs[runId].states)
  }

  lemma OneDrains(d: Digests, s: Store, runId: string, i: nat, actor: string, at: int)
    requires HasSteps(s, runId) && i < |s.runs[runId].defs|
    ensures Drained(s, PromoteOne(d, s, runId, i, actor, at), runId)
  {
    var run := s.runs[runId];
    if Enabled(run.defs, run.states, i) {
      PendingCountDrops(run.states, i, PromotedState(run.defs[i]));
    }
  }

  lemma DrainedTwice(s: Store, t: Store, u: Store, runId: string)
    ensures Drained(s, t, runId) && Drained(t, u, runId) ==> Drained(s, u, runId)
  {
  }

  /** The sweep of the store is the sweep of the plan; nothing but the states of this run moves. */
  lemma {:induction false} PromotedStates(d: Digests, s: Store, runId: string, n: nat, actor: string, at: int)
    requires HasSteps(s, runId) && n <= |s.runs[runId].defs|
    ensures var run, t := s.runs[runId], PromotedTo(d, s, runId, n, actor, at);
      && t.runs == s.runs[runId := run.(states := SweepTo(run.defs, run.states, n))]
      && t.receipts == s.receipts
      && s.log <= t.log
      && (t == s || |t.log| > |s.log|)
  {
    var run := s.runs[runId];
    if n == 0 {
      Overwrite(s.runs, runId, run, run);
    } else {
      var before := PromotedTo(d, s, runId, n - 1, actor, at);
      PromotedStates(d, s, runId, n - 1, actor, at);
      PromotedOnce(d, before, runId, n - 1, actor, at);
      Overwrite(s.runs, runId, before.runs[runId], run.(states := SweepTo(run.defs, run.states, n)));
    }
  }

  /** What every single promotion keeps, a pass keeps. */
  lemma {:induction false} PassKeeps(
      d: Digests, s: Store, runId: string, n: nat, actor: string, at: int, holds: Store -> bool)
    requires HasSteps(s, runId) && n <= |s.runs[runId].defs| && holds(s)
    requires forall t, i: nat ::
      (&& HasSteps(t, runId) && t.runs[runId].defs == s.runs[runId].defs
       && i < |t.runs[runId].defs| && holds(t)) ==> holds(PromoteOne(d, t, runId, i, actor, at))
    ensures holds(PromotedTo(d, s, runId, n, actor, at))
  {
    if n > 0 {
      PassKeeps(d, s, runId, n - 1, actor, at, holds);
    }
  }

  /** Whatever is logged in a pass leaves fewer pending steps. */
  lemma PromotedDrains(d: Digests, s: Store, runId: string, n: nat, actor: string, at: int)
    requires HasSteps(s, runId) && n <= |s.runs[runId].defs|
    ensures Drained(s, PromotedTo(d, s, runId, n, actor, at), runId)
  {
    forall t, i: nat | HasSteps(t, runId) && i < |t.runs[runId].defs| && Drained(s, t, runId)
      ensures Drained(s, PromoteOne(d, t, runId, i, actor, at), runId)
    {
      OneDrains(d, t, runId, i, actor, at);
      DrainedTwice(s, t, PromoteOne(d, t, runId, i, actor, at), runId);
    }
    PassKeeps(d, s, runId, n, actor, at, (t: Store) => Drained(s, t, runId));
  }

  /** Promotes every step that can be promoted, then concludes the state of the run. */
  function Reconciled(d: Digests, s: Store, runId: string, actor: string, at: int): (t: Store)
    requires HasSteps(s, runId)
  {
    var t := Promoted(d, s, runId, actor, at);
    t.(runs := t.runs[runId := Concluded(t.runs[runId], at)])
  }

  lemma ReconciledIsShaped(d: Digests, s: Store, runId: string, actor: string, at: int)
    requires AllShaped(s) && runId in s.runs
    ensures AllShaped(Reconciled(d, s, runId, actor, at))
  {
    PromotedStates(d, s, runId, |s.runs[runId].defs|, actor, at);
  }

  lemma Overwrite<K, V>(m: map<K, V>, k: K, a: V, b: V)
    ensures m[k := a][k := b] == m[k := b]
    ensures k in m && m[k] == a ==> m[k := a] == m
  {
  }

  lemma {:induction false} SettledIsNotPromoted(d: Digests, s: Store, runId: string, n: nat, actor: string, at: int)
    requires HasSteps(s, runId) && n <= |s.runs[runId].defs|
    requires Settled(s.runs[runId].defs, s.runs[runId].states)
    ensures PromotedTo(d, s, runId, n, actor, at) == s
  {
    if n > 0 {
      SettledIsNotPromoted(d, s, runId, n - 1, actor, at);
    }
  }

  /** A second pass finds nothing left to promote. */
  lemma PromotedTwice(d: Digests, s: Store, runId: string, actor: string, at: int)
    requires HasSteps(s, runId) && WellOrdered(s.runs[runId].defs)
    ensures Promoted(d, Promoted(d, s, runId, actor, at), runId, actor, at) == Promoted(d, s, runId, actor, at)
  {
    var run := s.runs[runId];
    PromotedStates(d, s, runId, |run.defs|, actor, at);
    SweepSettles(run.defs, run.states);
    SettledIsNotPromoted(d, Promoted(d, s, runId, actor, at), runId, |run.defs|, actor, at);
  }

  function FreshRun(d: Digests, plan: Plan, profile: string): Run {
    Run(d.plan(plan), d.profile(profile), plan.steps, InitialStates(plan.steps),
        seq(|plan.steps|, _ => None), Active, "", None)
  }

  function Opened(d: Digests, s: Store, runId: string, actor: string, plan: Plan, profile: string, now: int)
    : (r: Store)
    requires Admissible(plan)
    ensures runId in r.runs && Shaped(r.runs[runId])
  {
    AdmissibleIsWellOrdered(plan);
    Store(s.runs[runId := FreshRun(d, plan, profile)], s.receipts,
          Append(d.audit, s.log, InitialDraft(d, runId, actor, plan, profile, now)))
  }

  function Initialize(
      d: Digests, s: Store, runId: string, actor: string, plan: Plan, profile: string, now: int)
    : (Store, Verdict)
  {
    if !IsIdentifier(runId) || !IsIdentifier(actor) || !Admissible(plan) then (s, Refused(Malformed))
    else if runId in s.runs then
      if s.runs[runId].planDigest != d.plan(plan) || s.runs[runId].profileDigest != d.profile(profile)
      then (s, Refused(DifferentEvidence))
      else (s, Existing)
    else (Reconciled(d, Opened(d, s, runId, actor, plan, profile, now), runId, actor, now), Created)
  }

  /** The position of the step called id, or the number of steps. */
  function StepIndex(defs: seq<StepDef>, id: string): (i: nat)
    ensures i <= |defs|
    ensures i < |defs| ==> defs[i].id == id
    ensures forall j :: 0 <= j < i ==> defs[j].id != id
  {
    if defs == [] then 0
    else
      var n := |defs| - 1;
      var i := StepIndex(defs[..n], id);
      if i < n || defs[n].id == id then i else |defs|
  }

  /** Why a result for this step must be refused, if it must. */
  function ModeObjection(def: StepDef, r: StepResult): Option<Refusal> {
    if def.mutating then
      if r.mode != ExternallyExecuted then Some(NotExternallyExecuted)
      else if r.authorization.None? then Some(Unauthorized)
      else if Some(r.authorization.value.capability) != def.capability then Some(WrongCapability)
      else if r.authorization.value.authority == PrivilegeBroker && r.authorization.value.verifiedBy == ""
      then Some(NoVerifier)
      else None
    else if r.mode != ObservedOnly then Some(NotObservedOnly)
    else None
  }

  predicate Actionable(s: StepState) {
    s in {Ready, AwaitingReview, AwaitingApproval}
  }

  function Check(d: Digests, s: Store, r: StepResult): Verdict
    requires AllShaped(s)
  {
    if r.key in s.receipts then
      if s.receipts[r.key].digest != d.result(r) then Refused(KeyReused)
      else if s.receipts[r.key].runId != r.runId then Refused(KeyOfAnotherRun)
      else Replayed
    else if r.runId !in s.runs then Refused(UnknownStep)
    else
      var run := s.runs[r.runId];
      var i := StepIndex(run.defs, r.stepId);
      if i == |run.defs| then Refused(UnknownStep)
      else if run.states[i] == Satisfied then Refused(AlreadySatisfied)
      else if !Actionable(run.states[i]) then Refused(NotActionable)
      else if !DepsSatisfied(run.defs, run.states, i) then Refused(DependenciesOpen)
      else
        var objection := ModeObjection(run.defs[i], r);
        if objection.Some? then Refused(objection.value) else Recorded
  }

  /** The step row, the receipt and the audit event of a result accepted for step i. */
  function AcceptedAt(d: Digests, s: Store, r: StepResult, i: nat): (t: Store)
    requires r.runId in s.runs && Shaped(s.runs[r.runId]) && i < |s.runs[r.runId].defs|
    ensures r.runId in t.runs && Shaped(t.runs[r.runId])
  {
    var run := s.runs[r.runId];
    Store(
      s.runs[r.runId := run.(states := run.states[i := OutcomeState(r)],
                             accepted := run.accepted[i := Some(Acceptance(d.result(r), r))])],
      s.receipts[r.key := Receipt(r.runId, r.stepId, d.result(r))],
      Append(d.audit, s.log, ResultDraft(d, r)))
  }

  /** The store of a recorded result, before reconciling. */
  function Accepted(d: Digests, s: Store, r: StepResult): (t: Store)
    requires AllShaped(s) && Check(d, s, r) == Recorded
    ensures AllShaped(t) && r.runId in t.runs
  {
    AcceptedAt(d, s, r, StepIndex(s.runs[r.runId].defs, r.stepId))
  }

  function Record(d: Digests, s: Store, r: StepResult): (Store, Verdict)
    requires AllShaped(s)
  {
    var verdict := Check(d, s, r);
    if verdict == Recorded
    then (Reconciled(d, Accepted(d, s, r), r.runId, "bootstrap", r.observedAt), verdict)
    else (s, verdict)
  }

  // The operations in place

  class LifecycleStore {
    const d: Digests
    var runs: map<string, Run>
    var receipts: map<string, Receipt>
    var log: seq<Event>

    ghost function Value(): Store
      reads this
    {
      Store(runs, receipts, log)
    }

    constructor (d: Digests)
      ensures Value() == Store(map[], map[], []) && this.d == d
    {
      this.d := d;
      runs, receipts, log := map[], map[], [];
    }

    method AppendAudit(draft: Draft)
      modifies this`log
      ensures log == Append(d.audit, old(log), draft)
    {
      var previous := LastHash(log, draft.runId);
      var id := d.audit.eventId(draft, previous);
      log := log + [Event(id, draft, previous, d.audit.chain(previous, id, draft))];
    }

    /** One pass over the steps in ordinal order. The step rows are read when the pass starts, the
        states of dependencies when they are needed. */
    method ReconcilePass(runId: string, actor: string, at: int) returns (changed: bool)
      requires HasSteps(Value(), runId)
      modifies this`runs, this`log
      ensures Value() == Promoted(d, old(Value()), runId, actor, at)
      ensures changed <==> Value() != old(Value())
    {
      changed := false;
      var defs, rows := runs[runId].defs, runs[runId].states;
      ghost var s := Value();
      for i := 0 to |defs|
        invariant Value() == PromotedTo(d, s, runId, i, actor, at)
        invariant runs[runId].defs == defs
        invariant changed <==> |log| > |s.log|
      {
        PromotedStates(d, s, runId, i, actor, at);
        SweepLeavesTheRest(defs, rows, i);
        ghost var t := Value();
        if rows[i] == Pending && DepsSatisfied(defs, runs[runId].states, i) {
          var next := PromotedState(defs[i]);
          runs := runs[runId := runs[runId].(states := runs[runId].states[i := next])];
          AppendAudit(PromotionDraft(runId, defs[i], actor, at));
          assert Value() == PromotedAt(d, t, runId, i, actor, at);
          changed := true;
        }
      }
      PromotedStates(d, s, runId, |defs|, actor, at);
    }

    /** Repeats passes until one of them promotes nothing. */
    method Reconcile(runId: string, actor: string, at: int)
      requires HasSteps(Value(), runId) && WellOrdered(runs[runId].defs)
      modifies this
      ensures Value() == Reconciled(d, old(Value()), runId, actor, at)
    {
      ghost var s := Value();
      ghost var swept := Promoted(d, s, runId, actor, at);
      PromotedTwice(d, s, runId, actor, at);
      PromotedStates(d, s, runId, |runs[runId].defs|, actor, at);
      PromotedDrains(d, s, runId, |runs[runId].defs|, actor, at);
      var changed := true;
      while changed
        invariant (changed && Value() == s) || Value() == swept
        decreases PendingCount(runs[runId].states), changed
      {
        changed := ReconcilePass(runId, actor, at);
      }
      runs := runs[runId := Concluded(runs[runId], at)];
    }

    method InitializeRun(runId: string, actor: string, plan: Plan, profile: string, now: int)
      returns (verdict: Verdict)
      modifies this
      ensures (Value(), verdict) == Initialize(d, old(Value()), runId, actor, plan, profile, now)
    {
      var ok := ValidatePlan(plan);
      if !IsIdentifier(runId) || !IsIdentifier(actor) || !ok { return Refused(Malformed); }
      if runId in runs {
        if runs[runId].planDigest != d.plan(plan) || runs[runId].profileDigest != d.profile(profile) {
          return Refused(DifferentEvidence);
        }
        return Existing;
      }
      runs := runs[runId := FreshRun(d, plan, profile)];
      AppendAudit(InitialDraft(d, runId, actor, plan, profile, now));
      assert Value() == Opened(d, old(Value()), runId, actor, plan, profile, now);
      Reconcile(runId, actor, now);
      return Created;
    }

    method RecordResult(r: StepResult) returns (verdict: Verdict)
      requires AllShaped(Value())
      modifies this
      ensures (Value(), verdict) == Record(d, old(Value()), r)
    {
      if r.key in receipts {
        if receipts[r.key].digest != d.result(r) { return Refused(KeyReused); }
        if receipts[r.key].runId != r.runId { return Refused(KeyOfAnotherRun); }
        return Replayed;
      }
      if r.runId !in runs { return Refused(UnknownStep); }
      var run := runs[r.runId];
      var i := StepIndex(run.defs, r.stepId);
      if i == |run.defs| { return Refused(UnknownStep); }
      if run.states[i] == Satisfied { return Refused(AlreadySatisfied); }
      if !Actionable(run.states[i]) { return Refused(NotActionable); }
      if !DepsSatisfied(run.defs, run.states, i) { return Refused(DependenciesOpen); }
      var objection := ModeObjection(run.defs[i], r);
      if objection.Some? { return Refused(objection.value); }
      runs := runs[r.runId := run.(states := run.states[i := OutcomeState(r)],
                                   accepted := run.accepted[i := Some(Acceptance(d.result(r), r))])];
      receipts := receipts[r.key := Receipt(r.runId, r.stepId, d.result(r))];
      AppendAudit(ResultDraft(d, r));
      assert Value() == Accepted(d, old(Value()), r);
      Reconcile(r.runId, "bootstrap", r.observedAt);
      return Recorded;
    }
  }
}
