/**
 Bootstrap plans and the promotion of their steps (bootstrap/lifecycle.py).

 A plan is an ordered list of steps with dependencies. A PENDING step whose dependencies are all
 SATISFIED is promoted; promoting one step may enable another. This module shows that every maximal
 order of promotions ends in one and the same state, the least settled state above the start, and
 that for admissible plans a single left-to-right sweep reaches it.
 */
module BootstrapPlan {
  import opened Options

  datatype PlanStatus = NotNeeded | PlannedBlocked | Required | OtherStatus(text: string)

  datatype StepState =
    | Pending | Ready | AwaitingReview | AwaitingApproval | Satisfied | Failed | Blocked

  datatype StepDef = StepDef(
    id: string,
    phase: string,
    action: string,
    status: PlanStatus,
    mutating: bool,
    capability: Option<string>,
    deps: seq<string>)

  datatype Plan = Plan(
    schemaVersion: int,
    mode: string,
    failClosed: bool,
    automaticActions: seq<string>,
    steps: seq<StepDef>)

  // Admission of a plan

  predicate IsLower(c: char) { 'a' <= c <= 'z' }
  predicate IsDigit(c: char) { '0' <= c <= '9' }
  predicate IsAlnum(c: char) { IsLower(c) || 'A' <= c <= 'Z' || IsDigit(c) }
  predicate IsSeparator(c: char) { c == '.' || c == '_' || c == '-' }

  /** A letter or digit followed by at most 127 letters, digits, '.', '_', ':' or '-'. */
  predicate IsIdentifier(s: string) {
    && 1 <= |s| <= 128
    && IsAlnum(s[0])
    && forall i :: 1 <= i < |s| ==> IsAlnum(s[i]) || IsSeparator(s[i]) || s[i] == ':'
  }

  /** Two or more non-empty lower-case words joined by single separators, starting with a letter. */
  predicate IsCapability(s: string) {
    && 1 <= |s|
    && IsLower(s[0])
    && !IsSeparator(s[|s| - 1])
    && (forall i :: 0 <= i < |s| ==> IsLower(s[i]) || IsDigit(s[i]) || IsSeparator(s[i]))
    && (forall i :: 0 < i < |s| ==> !(IsSeparator(s[i - 1]) && IsSeparator(s[i])))
    && exists i :: 0 <= i < |s| && IsSeparator(s[i])
  }

  predicate CapabilityFits(def: StepDef) {
    if def.mutating then def.capability.Some? && IsCapability(def.capability.value)
    else def.capability.None?
  }

  predicate DistinctIds(defs: seq<StepDef>) {
    forall i, j :: 0 <= i < j < |defs| ==> defs[i].id != defs[j].id
  }

  /** Some step at or before position i is called d. */
  predicate DefinedBy(defs: seq<StepDef>, i: nat, d: string)
    requires i < |defs|
  {
    exists j :: 0 <= j <= i && defs[j].id == d
  }

  /** Every dependency names the step itself or an earlier one. */
  predicate DepsReachBack(defs: seq<StepDef>) {
    forall i, d :: 0 <= i < |defs| && d in defs[i].deps ==> DefinedBy(defs, i, d)
  }

  /** What later operations rely on of an admitted plan. */
  predicate WellOrdered(defs: seq<StepDef>) {
    && DistinctIds(defs)
    && DepsReachBack(defs)
    && forall i :: 0 <= i < |defs| && defs[i].mutating ==> defs[i].capability.Some?
  }

  predicate AdmissibleSteps(defs: seq<StepDef>) {
    && DistinctIds(defs)
    && DepsReachBack(defs)
    && forall i :: 0 <= i < |defs| ==> IsIdentifier(defs[i].id) && CapabilityFits(defs[i])
  }

  predicate Admissible(plan: Plan) {
    && plan.schemaVersion == 2 && plan.mode == "dryRun"
    && plan.failClosed && plan.automaticActions == []
    && plan.steps != []
    && AdmissibleSteps(plan.steps)
  }

  /** The plan check: one pass that collects the identifiers seen so far. */
  method ValidatePlan(plan: Plan) returns (ok: bool)
    ensures ok <==> Admissible(plan)
  {
    if plan.schemaVersion != 2 || plan.mode != "dryRun" { return false; }
    if !plan.failClosed || plan.automaticActions != [] { return false; }
    if plan.steps == [] { return false; }
    var defs := plan.steps;
    var identifiers: set<string> := {};
    for i := 0 to |defs|
      invariant identifiers == set j | 0 <= j < i :: defs[j].id
      invariant forall j, k :: 0 <= j < k < i ==> defs[j].id != defs[k].id
      invariant forall j, d :: 0 <= j < i && d in defs[j].deps ==> DefinedBy(defs, j, d)
      invariant forall j :: 0 <= j < i ==> IsIdentifier(defs[j].id) && CapabilityFits(defs[j])
    {
      var def := defs[i];
      if !IsIdentifier(def.id) || def.id in identifiers { return false; }
      identifiers := identifiers + {def.id};
      // The step's own identifier is already in the set: a self-dependency passes.
      if exists d :: d in def.deps && d !in identifiers {
        ghost var d :| d in def.deps && d !in identifiers;
        assert !DefinedBy(defs, i, d);
        return false;
      }
      if !CapabilityFits(def) { return false; }
      forall d | d in def.deps ensures DefinedBy(defs, i, d) {
        assert d in identifiers;
      }
    }
    return true;
  }

  lemma AdmissibleIsWellOrdered(plan: Plan)
    requires Admissible(plan)
    ensures WellOrdered(plan.steps)
  {
    forall i | 0 <= i < |plan.steps| && plan.steps[i].mutating ensures plan.steps[i].capability.Some? {
      assert CapabilityFits(plan.steps[i]);
    }
  }

  predicate SelfDependent(def: StepDef) { def.id in def.deps }

  /** The refusal text speaks of earlier steps, yet a step may depend on itself. */
  lemma SelfDependencyIsAdmitted()
    ensures exists plan :: Admissible(plan) && SelfDependent(plan.steps[0])
  {
    var def := StepDef("a", "p", "x", Required, false, None, ["a"]);
    var plan := Plan(2, "dryRun", true, [], [def]);
    assert DefinedBy(plan.steps, 0, "a") by { assert plan.steps[0].id == "a"; }
    assert Admissible(plan) && SelfDependent(plan.steps[0]);
  }

  // Promotion

  function InitialState(def: StepDef, ordinal: nat): StepState {
    if ordinal == 0 && def.status == PlannedBlocked then Blocked else Pending
  }

  function InitialStates(defs: seq<StepDef>): (st: seq<StepState>)
    ensures |st| == |defs|
  {
    seq(|defs|, i requires 0 <= i < |defs| => InitialState(defs[i], i))
  }

  /** The state a promoted step enters. */
  function PromotedState(def: StepDef): (s: StepState)
    ensures s in {Satisfied, Ready, AwaitingReview, AwaitingApproval}
    ensures s == Satisfied <==> def.status == NotNeeded
    ensures s == AwaitingReview <==> def.status == Required
    ensures s == AwaitingApproval <==> def.status.OtherStatus? && def.mutating
  {
    match def.status
    case NotNeeded => Satisfied
    case PlannedBlocked => Ready
    case Required => AwaitingReview
    case OtherStatus(_) => if def.mutating then AwaitingApproval else Ready
  }

  predicate DepSatisfied(defs: seq<StepDef>, st: seq<StepState>, d: string)
    requires |st| == |defs|
  {
    exists j :: 0 <= j < |defs| && defs[j].id == d && st[j] == Satisfied
  }

  predicate DepsSatisfied(defs: seq<StepDef>, st: seq<StepState>, i: nat)
    requires |st| == |defs| && i < |defs|
  {
    forall d :: d in defs[i].deps ==> DepSatisfied(defs, st, d)
  }

  predicate Enabled(defs: seq<StepDef>, st: seq<StepState>, i: nat)
    requires |st| == |defs| && i < |defs|
  {
    st[i] == Pending && DepsSatisfied(defs, st, i)
  }

  /** No step can be promoted any more. */
  predicate Settled(defs: seq<StepDef>, st: seq<StepState>)
    requires |st| == |defs|
  {
    forall i :: 0 <= i < |defs| ==> !Enabled(defs, st, i)
  }

  function Promote(defs: seq<StepDef>, st: seq<StepState>, i: nat): (r: seq<StepState>)
    requires |st| == |defs| && i < |defs|
    ensures |r| == |st|
  {
    if Enabled(defs, st, i) then st[i := PromotedState(defs[i])] else st
  }

  predicate Positions(order: seq<nat>, n: nat) {
    forall k :: 0 <= k < |order| ==> order[k] < n
  }

  /** Visits the steps in the given order; positions may repeat or be missing. */
  function PromoteAll(defs: seq<StepDef>, st: seq<StepState>, order: seq<nat>): (r: seq<StepState>)
    requires |st| == |defs|
    requires Positions(order, |defs|)
    ensures |r| == |st|
    decreases |order|
  {
    if order == [] then st
    else
      var i := |order| - 1;
      Promote(defs, PromoteAll(defs, st, order[..i]), order[i])
  }

  // The least settled state

  /** t is reached from s by promoting some pending steps, whether or not they were enabled. */
  predicate Below(defs: seq<StepDef>, s: seq<StepState>, t: seq<StepState>)
    requires |s| == |defs| == |t|
  {
    forall i :: 0 <= i < |defs| ==> t[i] == s[i] || (s[i] == Pending && t[i] == PromotedState(defs[i]))
  }

  /** A promotion never overshoots a settled state. */
  lemma PromoteStaysBelow(defs: seq<StepDef>, s: seq<StepState>, t: seq<StepState>, i: nat)
    requires |s| == |defs| == |t| && i < |defs|
    requires Below(defs, s, t) && Settled(defs, t)
    ensures Below(defs, Promote(defs, s, i), t)
  {
    if Enabled(defs, s, i) {
      forall d | d in defs[i].deps ensures DepSatisfied(defs, t, d) {
        var j :| 0 <= j < |defs| && defs[j].id == d && s[j] == Satisfied;
        assert t[j] == Satisfied;
      }
      assert DepsSatisfied(defs, t, i);
      assert !Enabled(defs, t, i);
    }
  }

  lemma {:induction false} PromoteAllStaysBelow(
      defs: seq<StepDef>, s: seq<StepState>, t: seq<StepState>, order: seq<nat>)
    requires |s| == |defs| == |t|
    requires Positions(order, |defs|)
    requires Below(defs, s, t) && Settled(defs, t)
    ensures Below(defs, PromoteAll(defs, s, order), t)
    decreases |order|
  {
    if order != [] {
      var i := |order| - 1;
      PromoteAllStaysBelow(defs, s, t, order[..i]);
      PromoteStaysBelow(defs, PromoteAll(defs, s, order[..i]), t, order[i]);
    }
  }

  lemma {:induction false} PromoteAllClimbs(defs: seq<StepDef>, s: seq<StepState>, order: seq<nat>)
    requires |s| == |defs|
    requires Positions(order, |defs|)
    ensures Below(defs, s, PromoteAll(defs, s, order))
    decreases |order|
  {
    if order != [] {
      PromoteAllClimbs(defs, s, order[..|order| - 1]);
    }
  }

  /** r is settled, lies above s, and lies below every other settled state above s. */
  ghost predicate LeastSettled(defs: seq<StepDef>, s: seq<StepState>, r: seq<StepState>)
    requires |s| == |defs|
  {
    && |r| == |defs|
    && Below(defs, s, r)
    && Settled(defs, r)
    && forall t :: |t| == |defs| && Below(defs, s, t) && Settled(defs, t) ==> Below(defs, r, t)
  }

  lemma LeastSettledIsUnique(defs: seq<StepDef>, s: seq<StepState>, a: seq<StepState>, b: seq<StepState>)
    requires |s| == |defs|
    requires LeastSettled(defs, s, a) && LeastSettled(defs, s, b)
    ensures a == b
  {
    assert Below(defs, a, b) && Below(defs, b, a);
    forall i | 0 <= i < |defs| ensures a[i] == b[i] {
      assert PromotedState(defs[i]) != Pending;
    }
  }

  /** Confluence: whatever the visiting order, a run of promotions that settles has reached the
      least settled state, so any two such runs agree on every step. */
  lemma AnySettlingOrderIsLeast(defs: seq<StepDef>, s: seq<StepState>, order: seq<nat>)
    requires |s| == |defs|
    requires Positions(order, |defs|)
    requires Settled(defs, PromoteAll(defs, s, order))
    ensures LeastSettled(defs, s, PromoteAll(defs, s, order))
  {
    PromoteAllClimbs(defs, s, order);
    forall t | |t| == |defs| && Below(defs, s, t) && Settled(defs, t)
      ensures Below(defs, PromoteAll(defs, s, order), t)
    {
      PromoteAllStaysBelow(defs, s, t, order);
    }
  }

  lemma VisitingOrderIsIrrelevant(
      defs: seq<StepDef>, s: seq<StepState>, order: seq<nat>, other: seq<nat>)
    requires |s| == |defs|
    requires Positions(order, |defs|) && Positions(other, |defs|)
    requires Settled(defs, PromoteAll(defs, s, order)) && Settled(defs, PromoteAll(defs, s, other))
    ensures PromoteAll(defs, s, order) == PromoteAll(defs, s, other)
  {
    AnySettlingOrderIsLeast(defs, s, order);
    AnySettlingOrderIsLeast(defs, s, other);
    LeastSettledIsUnique(defs, s, PromoteAll(defs, s, order), PromoteAll(defs, s, other));
  }

  // One sweep suffices

  /** The states after a left-to-right sweep over the positions below n. */
  function SweepTo(defs: seq<StepDef>, st: seq<StepState>, n: nat): (r: seq<StepState>)
    requires |st| == |defs| && n <= |defs|
    ensures |r| == |st|
  {
    if n == 0 then st else Promote(defs, SweepTo(defs, st, n - 1), n - 1)
  }

  function Sweep(defs: seq<StepDef>, st: seq<StepState>): (r: seq<StepState>)
    requires |st| == |defs|
    ensures |r| == |st|
  {
    SweepTo(defs, st, |defs|)
  }

  /** A sweep is the visiting order 0, 1, 2, ... */
  lemma {:induction false} SweepVisitsInOrder(defs: seq<StepDef>, st: seq<StepState>, n: nat)
    requires |st| == |defs| && n <= |defs|
    ensures Positions(seq(n, i => i), |defs|)
    ensures SweepTo(defs, st, n) == PromoteAll(defs, st, seq(n, i => i))
  {
    if n > 0 {
      SweepVisitsInOrder(defs, st, n - 1);
      assert seq(n, i => i)[..n - 1] == seq(n - 1, i => i);
    }
  }

  /** Steps the sweep has not visited yet keep their state. */
  lemma {:induction false} SweepLeavesTheRest(defs: seq<StepDef>, st: seq<StepState>, n: nat)
    requires |st| == |defs| && n <= |defs|
    ensures forall j :: n <= j < |defs| ==> SweepTo(defs, st, n)[j] == st[j]
  {
    if n > 0 {
      SweepLeavesTheRest(defs, st, n - 1);
    }
  }

  /** Whether step j is enabled depends only on steps at or before j. */
  lemma EnabledLooksBack(
      defs: seq<StepDef>, s: seq<StepState>, t: seq<StepState>, j: nat)
    requires |s| == |defs| == |t| && j < |defs|
    requires DistinctIds(defs) && DepsReachBack(defs)
    requires forall k :: 0 <= k <= j ==> s[k] == t[k]
    ensures Enabled(defs, s, j) == Enabled(defs, t, j)
  {
    forall d | d in defs[j].deps ensures DepSatisfied(defs, s, d) == DepSatisfied(defs, t, d) {
      assert DefinedBy(defs, j, d);
      var k :| 0 <= k <= j && defs[k].id == d;
      assert forall m :: 0 <= m < |defs| && defs[m].id == d ==> m == k;
    }
  }

  lemma {:induction false} SweepSettlesPrefix(defs: seq<StepDef>, st: seq<StepState>, n: nat)
    requires |st| == |defs| && n <= |defs|
    requires DistinctIds(defs) && DepsReachBack(defs)
    ensures forall j :: 0 <= j < n ==> !Enabled(defs, SweepTo(defs, st, n), j)
  {
    if n > 0 {
      SweepSettlesPrefix(defs, st, n - 1);
      var before, after := SweepTo(defs, st, n - 1), SweepTo(defs, st, n);
      forall j | 0 <= j < n - 1 ensures !Enabled(defs, after, j) {
        EnabledLooksBack(defs, before, after, j);
      }
    }
  }

  lemma SweepSettles(defs: seq<StepDef>, st: seq<StepState>)
    requires |st| == |defs|
    requires DistinctIds(defs) && DepsReachBack(defs)
    ensures Settled(defs, Sweep(defs, st))
  {
    SweepSettlesPrefix(defs, st, |defs|);
  }

  /** For plans that look back, one sweep computes the least settled state. */
  lemma SweepIsLeast(defs: seq<StepDef>, st: seq<StepState>)
    requires |st| == |defs|
    requires DistinctIds(defs) && DepsReachBack(defs)
    ensures LeastSettled(defs, st, Sweep(defs, st))
  {
    SweepSettles(defs, st);
    SweepVisitsInOrder(defs, st, |defs|);
    AnySettlingOrderIsLeast(defs, st, seq(|defs|, i => i));
  }

  // Termination measure

  function PendingCount(st: seq<StepState>): nat {
    if st == [] then 0 else PendingCount(st[..|st| - 1]) + (if st[|st| - 1] == Pending then 1 else 0)
  }

  lemma {:induction false} PendingCountDrops(st: seq<StepState>, i: nat, s: StepState)
    requires i < |st| && st[i] == Pending && s != Pending
    ensures PendingCount(st[i := s]) == PendingCount(st) - 1
  {
    var n := |st| - 1;
    if i == n {
      assert st[i := s][..n] == st[..n];
    } else {
      assert st[i := s][..n] == st[..n][i := s];
      PendingCountDrops(st[..n], i, s);
    }
  }

  /** A sweep lowers the number of pending steps, unless it changes nothing. */
  lemma {:induction false} SweepDrainsPending(defs: seq<StepDef>, st: seq<StepState>, n: nat)
    requires |st| == |defs| && n <= |defs|
    ensures SweepTo(defs, st, n) == st || PendingCount(SweepTo(defs, st, n)) < PendingCount(st)
  {
    if n > 0 {
      SweepDrainsPending(defs, st, n - 1);
      var before := SweepTo(defs, st, n - 1);
      if Enabled(defs, before, n - 1) {
        PendingCountDrops(before, n - 1, PromotedState(defs[n - 1]));
      }
    }
  }
}
