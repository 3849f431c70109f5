/**
 What the last audit hash of a bootstrap run attests: the first event of a run commits to its plan, so
 with collision-free hashes one hash fixes the plan, the history and the state of every step.
 */
module BootstrapEvidence {
  import opened Options
  import opened BootstrapPlan
  import opened AuditChain
  import opened BootstrapStore
  import opened BootstrapRuns
  import opened BootstrapTheorems

  lemma {:induction false} ProjectPrefix(a: seq<Event>, b: seq<Event>, r: string)
    requires a <= b
    ensures Project(a, r) <= Project(b, r)
    decreases |b|
  {
    if a != b {
      ProjectPrefix(a, b[..|b| - 1], r);
    }
  }

  /** The first event of a run. */
  function Opening(log: seq<Event>, r: string): Option<Payload> {
    if Project(log, r) == [] then None else Some(Project(log, r)[0].draft.payload)
  }

  lemma OpeningStays(a: seq<Event>, b: seq<Event>, r: string)
    requires a <= b && Opening(a, r).Some?
    ensures Opening(b, r) == Opening(a, r)
  {
    ProjectPrefix(a, b, r);
  }

  /** The event says which plan the steps come from. */
  predicate Attests(d: Digests, opening: Option<Payload>, defs: seq<StepDef>, plan: Plan) {
    opening.Some? && opening.value.Evidence? && opening.value.planDigest == d.plan(plan) && plan.steps == defs
  }

  ghost predicate Attested(d: Digests, s: Store, r: string)
    requires r in s.runs
  {
    exists plan :: Attests(d, Opening(s.log, r), s.runs[r].defs, plan)
  }

  ghost predicate AllAttested(d: Digests, s: Store) { forall r :: r in s.runs ==> Attested(d, s, r) }

  lemma AttestedStays(d: Digests, s: Store, t: Store, r: string)
    requires Evolves(s, t) && r in s.runs && Attested(d, s, r)
    ensures r in t.runs && Attested(d, t, r)
  {
    var plan :| Attests(d, Opening(s.log, r), s.runs[r].defs, plan);
    OpeningStays(s.log, t.log, r);
    assert RunEvolves(s.runs[r], t.runs[r]);
    assert Attests(d, Opening(t.log, r), t.runs[r].defs, plan);
  }

  lemma OpenedOpening(d: Digests, s: Store, r: string, actor: string, plan: Plan, profile: string, now: int)
    requires Admissible(plan) && Project(s.log, r) == []
    ensures Attests(d, Opening(Opened(d, s, r, actor, plan, profile, now).log, r), plan.steps, plan)
  {
    ProjectAppend(d.audit, s.log, InitialDraft(d, r, actor, plan, profile, now), r);
  }

  /** A run that was just created attests its plan. */
  lemma CreatedIsAttested(d: Digests, s: Store, r: string, actor: string, plan: Plan, profile: string, now: int)
    requires Inv(d, s) && Initialize(d, s, r, actor, plan, profile, now).1 == Created
    ensures var t := Initialize(d, s, r, actor, plan, profile, now).0; r in t.runs && Attested(d, t, r)
  {
    var mid, t := Opened(d, s, r, actor, plan, profile, now), Initialize(d, s, r, actor, plan, profile, now).0;
    assert LogFits(d, s, r);
    OpenedOpening(d, s, r, actor, plan, profile, now);
    ReconciledRun(d, mid, r, actor, now);
    OpeningStays(mid.log, t.log, r);
    assert Attests(d, Opening(t.log, r), t.runs[r].defs, plan);
  }

  lemma ReconciledKeys(d: Digests, s: Store, runId: string, actor: string, at: int)
    requires runId in s.runs && Shaped(s.runs[runId])
    ensures Reconciled(d, s, runId, actor, at).runs.Keys == s.runs.Keys
  {
    ReconciledRun(d, s, runId, actor, at);
  }

  lemma RecordAddsNoRun(d: Digests, s: Store, result: StepResult)
    requires AllShaped(s)
    ensures Record(d, s, result).0.runs.Keys == s.runs.Keys
  {
    if Check(d, s, result) == Recorded {
      ReconciledKeys(d, Accepted(d, s, result), result.runId, "bootstrap", result.observedAt);
    }
  }

  lemma InitializeAddsItsRun(
      d: Digests, s: Store, runId: string, actor: string, plan: Plan, profile: string, now: int)
    ensures var (t, verdict) := Initialize(d, s, runId, actor, plan, profile, now);
      t.runs.Keys == if verdict == Created then s.runs.Keys + {runId} else s.runs.Keys
  {
    if Initialize(d, s, runId, actor, plan, profile, now).1 == Created {
      ReconciledKeys(d, Opened(d, s, runId, actor, plan, profile, now), runId, actor, now);
    }
  }

  /** Only a creation adds a run. */
  lemma NewRuns(d: Digests, s: Store, op: Op, r: string)
    requires AllShaped(s) && r in Apply(d, s, op).runs.Keys && r !in s.runs.Keys
    ensures op.DoInitialize? && op.runId == r
    ensures Initialize(d, s, op.runId, op.actor, op.plan, op.profile, op.now).1 == Created
  {
    match op
    case DoInitialize(runId, actor, plan, profile, now) => InitializeAddsItsRun(d, s, runId, actor, plan, profile, now);
    case DoRecord(result) => RecordAddsNoRun(d, s, result);
  }

  lemma ApplyAttests(d: Digests, s: Store, op: Op)
    requires AllShaped(s) && Inv(d, s) && AllAttested(d, s)
    ensures AllAttested(d, Apply(d, s, op))
  {
    ApplyEvolves(d, s, op);
    forall r | r in Apply(d, s, op).runs
      ensures Attested(d, Apply(d, s, op), r)
    {
      if r in s.runs {
        AttestedStays(d, s, Apply(d, s, op), r);
      } else {
        NewRuns(d, s, op, r);
        CreatedIsAttested(d, s, op.runId, op.actor, op.plan, op.profile, op.now);
      }
    }
  }

  lemma {:induction false} AttestedFrom(d: Digests, s: Store, ops: seq<Op>)
    requires AllShaped(s) && Inv(d, s) && AllAttested(d, s)
    ensures AllAttested(d, Execute(d, s, ops))
    decreases |ops|
  {
    if ops != [] {
      ApplyAttests(d, s, ops[0]);
      ApplyKeepsInv(d, s, ops[0]);
      AttestedFrom(d, Apply(d, s, ops[0]), ops[1..]);
    }
  }

  /** After any operations the first event of every run attests the plan that its steps come from. */
  lemma RunsAttestTheirPlans(d: Digests, ops: seq<Op>, r: string)
    requires r in Execute(d, EMPTY, ops).runs
    ensures Attested(d, Execute(d, EMPTY, ops), r)
  {
    InvAlways(d, []);
    assert Execute(d, EMPTY, []) == EMPTY;
    AttestedFrom(d, EMPTY, ops);
  }

  /** A run exists exactly if it has events. */
  lemma RunsHaveEvents(d: Digests, ops: seq<Op>, r: string)
    ensures r in Execute(d, EMPTY, ops).runs <==> Project(Execute(d, EMPTY, ops).log, r) != []
  {
    InvAlways(d, ops);
    assert LogFits(d, Execute(d, EMPTY, ops), r);
    if r in Execute(d, EMPTY, ops).runs {
      RunsAttestTheirPlans(d, ops, r);
    }
  }

  ghost predicate PlansAreTold(d: Digests) {
    forall p, q {:trigger d.plan(p), d.plan(q)} :: d.plan(p) == d.plan(q) ==> p == q
  }

  /** Equal first events and collision-free plan digests mean equal plans. */
  lemma SamePlan(d: Digests, s: Store, t: Store, r: string)
    requires PlansAreTold(d) && r in s.runs && r in t.runs && Attested(d, s, r) && Attested(d, t, r)
    requires Opening(s.log, r) == Opening(t.log, r)
    ensures s.runs[r].defs == t.runs[r].defs
  {
    var p :| Attests(d, Opening(s.log, r), s.runs[r].defs, p);
    var q :| Attests(d, Opening(t.log, r), t.runs[r].defs, q);
    assert d.plan(p) == d.plan(q);
  }

  /** With collision-free hashes, one last hash pins down a run: two stores in which the run ends in the
      same hash have the same events of it, and so the same plan and the same state of every step. */
  lemma LastHashPinsTheRun(d: Digests, ops: seq<Op>, other: seq<Op>, r: string)
    requires Injective(d.audit) && NeverGenesis(d.audit) && PlansAreTold(d)
    requires LastHash(Execute(d, EMPTY, ops).log, r) == LastHash(Execute(d, EMPTY, other).log, r)
    ensures Project(Execute(d, EMPTY, ops).log, r) == Project(Execute(d, EMPTY, other).log, r)
    ensures r in Execute(d, EMPTY, ops).runs <==> r in Execute(d, EMPTY, other).runs
    ensures r in Execute(d, EMPTY, ops).runs ==>
      var a, b := Execute(d, EMPTY, ops).runs[r], Execute(d, EMPTY, other).runs[r];
      a.defs == b.defs && a.states == b.states
  {
    AuditTellsTheStates(d, ops, r);
    AuditTellsTheStates(d, other, r);
    SameLastHash(d.audit, r, Execute(d, EMPTY, ops).log, Execute(d, EMPTY, other).log);
    RunsHaveEvents(d, ops, r);
    RunsHaveEvents(d, other, r);
    if r in Execute(d, EMPTY, ops).runs {
      RunsAttestTheirPlans(d, ops, r);
      RunsAttestTheirPlans(d, other, r);
      SamePlan(d, Execute(d, EMPTY, ops), Execute(d, EMPTY, other), r);
    }
  }
}
