/**
 When a bootstrap run can be driven to COMPLETE: exactly when no step has failed, the first step was
 not planned as blocked and no step depends on itself. Then at most one successful result for each
 unsatisfied step is needed, and before that the first unsatisfied step is always actionable.
 */
module BootstrapProgress {
  import opened Options
  import opened BootstrapPlan
  import opened BootstrapStore
  import opened BootstrapRuns
  import opened BootstrapTheorems

  /** Decidable from the plan and the current step states. */
  predicate Completable(run: Run)
    requires Shaped(run)
  {
    && run.defs[0].status != PlannedBlocked
    && (forall i :: 0 <= i < |run.defs| ==> !SelfDependent(run.defs[i]))
    && (forall i :: 0 <= i < |run.states| ==> run.states[i] != Failed)
  }

  /** With everything before it satisfied and no dependency on itself, a step's dependencies are. */
  lemma DepsBeforeAreSatisfied(defs: seq<StepDef>, st: seq<StepState>, i: nat)
    requires |st| == |defs| && i < |defs| && DepsReachBack(defs) && !SelfDependent(defs[i])
    requires forall j :: 0 <= j < i ==> st[j] == Satisfied
    ensures DepsSatisfied(defs, st, i)
  {
    forall dep | dep in defs[i].deps ensures DepSatisfied(defs, st, dep) {
      assert DefinedBy(defs, i, dep);
      var j :| 0 <= j <= i && defs[j].id == dep;
      assert st[j] == Satisfied;
    }
  }

  /** No deadlock: unless the run is complete, its first unsatisfied step can take a result. */
  lemma FirstUnsatisfiedIsActionable(d: Digests, s: Store, r: string)
    requires Inv(d, s) && r in s.runs && Shaped(s.runs[r]) && Completable(s.runs[r])
    ensures var run := s.runs[r];
      var i := FirstUnsatisfied(run.states);
      if i == |run.states| then run.state == Complete
      else Actionable(run.states[i]) && DepsSatisfied(run.defs, run.states, i) && run.accepted[i].None?
  {
    var run := s.runs[r];
    var i := FirstUnsatisfied(run.states);
    assert Rested(run) && RunFits(d, s, r);
    if i < |run.states| {
      assert StepFits(d, r, run.defs, run.states, run.accepted, i);
      DepsBeforeAreSatisfied(run.defs, run.states, i);
      assert !Enabled(run.defs, run.states, i);
    }
  }

  // Counting

  function UnsatisfiedCount(st: seq<StepState>): nat {
    if st == [] then 0
    else UnsatisfiedCount(st[..|st| - 1]) + (if st[|st| - 1] == Satisfied then 0 else 1)
  }

  lemma {:induction false} FewerUnsatisfied(a: seq<StepState>, b: seq<StepState>)
    requires |a| == |b|
    requires forall i :: 0 <= i < |a| && a[i] == Satisfied ==> b[i] == Satisfied
    ensures UnsatisfiedCount(b) <= UnsatisfiedCount(a)
    ensures (exists i :: 0 <= i < |a| && a[i] != Satisfied && b[i] == Satisfied) ==>
      UnsatisfiedCount(b) < UnsatisfiedCount(a)
  {
    if a != [] {
      var n := |a| - 1;
      FewerUnsatisfied(a[..n], b[..n]);
      if i :| 0 <= i < |a| && a[i] != Satisfied && b[i] == Satisfied {
        if i < n {
          assert a[..n][i] != Satisfied && b[..n][i] == Satisfied;
        }
      }
    }
  }

  // Driving a run

  /** A successful result that any broker holding the planned capability may submit. */
  function SuccessFor(runId: string, def: StepDef, key: string): StepResult
    requires def.mutating ==> def.capability.Some?
  {
    StepResult(runId, def.id, key, true,
               if def.mutating then ExternallyExecuted else ObservedOnly,
               "operator", 0, "",
               if def.mutating then Some(Authorization("grant", def.capability.value, "node", "broker", Human))
               else None)
  }

  lemma SuccessIsRecorded(d: Digests, s: Store, r: string, i: nat, key: string)
    requires AllShaped(s) && r in s.runs && i < |s.runs[r].defs| && key !in s.receipts
    requires Actionable(s.runs[r].states[i]) && DepsSatisfied(s.runs[r].defs, s.runs[r].states, i)
    ensures Check(d, s, SuccessFor(r, s.runs[r].defs[i], key)) == Recorded
    ensures Takes(s, SuccessFor(r, s.runs[r].defs[i], key), i)
  {
    StepIndexOf(s.runs[r].defs, i);
  }

  /** Satisfying an actionable step and sweeping leaves fewer unsatisfied steps and fails nothing. */
  lemma SatisfyingAdvances(defs: seq<StepDef>, st: seq<StepState>, i: nat)
    requires |st| == |defs| && DistinctIds(defs) && DepsReachBack(defs) && i < |st| && Actionable(st[i])
    requires forall j :: 0 <= j < |st| ==> st[j] != Failed
    ensures var after := Sweep(defs, st[i := Satisfied]);
      UnsatisfiedCount(after) < UnsatisfiedCount(st) && forall j :: 0 <= j < |after| ==> after[j] != Failed
  {
    var mid := st[i := Satisfied];
    SweepIsLeast(defs, mid);
    var after := Sweep(defs, mid);
    assert Below(defs, mid, after);
    assert after[i] == Satisfied;
    FewerUnsatisfied(st, after);
  }

  /** What recording that success does to the run and to the receipts. */
  lemma SuccessReconciles(d: Digests, s: Store, r: string, i: nat, key: string)
    requires AllShaped(s) && r in s.runs && i < |s.runs[r].defs| && key !in s.receipts
    requires Actionable(s.runs[r].states[i]) && DepsSatisfied(s.runs[r].defs, s.runs[r].states, i)
    ensures var run, t := s.runs[r], Apply(d, s, DoRecord(SuccessFor(r, s.runs[r].defs[i], key)));
      && r in t.runs && t.runs[r].defs == run.defs && t.runs[r].states == Sweep(run.defs, run.states[i := Satisfied])
      && t.receipts.Keys == s.receipts.Keys + {key}
  {
    var result := SuccessFor(r, s.runs[r].defs[i], key);
    SuccessIsRecorded(d, s, r, i, key);
    StepIndexOf(s.runs[r].defs, i);
    ReconciledRun(d, AcceptedAt(d, s, result, i), r, "bootstrap", 0);
  }

  /** A successful result for an actionable step leaves fewer unsatisfied steps and fails nothing. */
  lemma SuccessAdvances(d: Digests, s: Store, r: string, i: nat, key: string)
    requires AllShaped(s) && r in s.runs && Completable(s.runs[r]) && i < |s.runs[r].defs|
    requires key !in s.receipts
    requires Actionable(s.runs[r].states[i]) && DepsSatisfied(s.runs[r].defs, s.runs[r].states, i)
    ensures var t := Apply(d, s, DoRecord(SuccessFor(r, s.runs[r].defs[i], key)));
      && r in t.runs && Completable(t.runs[r])
      && UnsatisfiedCount(t.runs[r].states) < UnsatisfiedCount(s.runs[r].states)
      && t.receipts.Keys == s.receipts.Keys + {key}
  {
    SuccessReconciles(d, s, r, i, key);
    SatisfyingAdvances(s.runs[r].defs, s.runs[r].states, i);
  }

  /** Distinct keys that no receipt carries. */
  predicate Unused(keys: seq<string>, receipts: map<string, Receipt>) {
    && (forall i, j :: 0 <= i < j < |keys| ==> keys[i] != keys[j])
    && (forall i :: 0 <= i < |keys| ==> keys[i] !in receipts)
  }

  lemma RestUnused(keys: seq<string>, a: map<string, Receipt>, b: map<string, Receipt>)
    requires keys != [] && Unused(keys, a) && b.Keys == a.Keys + {keys[0]}
    ensures Unused(keys[1..], b)
  {
    forall i | 0 <= i < |keys| - 1 ensures keys[1..][i] !in b {
      assert keys[1..][i] == keys[i + 1];
      assert keys[i + 1] !in b.Keys;
    }
  }

  predicate IsSuccess(op: Op, r: string) {
    op.DoRecord? && op.result.runId == r && op.result.succeeded
  }

  predicate AllSuccesses(ops: seq<Op>, r: string) {
    forall k :: 0 <= k < |ops| ==> IsSuccess(ops[k], r)
  }

  lemma PrependSuccess(op: Op, rest: seq<Op>, r: string)
    requires IsSuccess(op, r) && AllSuccesses(rest, r)
    ensures AllSuccesses([op] + rest, r)
  {
  }

  lemma IncompleteCount(d: Digests, s: Store, r: string)
    requires Inv(d, s) && r in s.runs && s.runs[r].state != Complete
    ensures UnsatisfiedCount(s.runs[r].states) > 0
  {
    assert Rested(s.runs[r]);
    var i :| 0 <= i < |s.runs[r].states| && s.runs[r].states[i] != Satisfied;
    PositiveCount(s.runs[r].states, i);
  }

  lemma NextSuccess(d: Digests, s: Store, r: string, key: string) returns (op: Op)
    requires AllShaped(s) && Inv(d, s) && r in s.runs && Completable(s.runs[r])
    requires key !in s.receipts && s.runs[r].state != Complete
    ensures IsSuccess(op, r)
    ensures var t := Apply(d, s, op);
      && Inv(d, t) && r in t.runs && Completable(t.runs[r])
      && UnsatisfiedCount(t.runs[r].states) < UnsatisfiedCount(s.runs[r].states)
      && t.receipts.Keys == s.receipts.Keys + {key}
  {
    FirstUnsatisfiedIsActionable(d, s, r);
    var i := FirstUnsatisfied(s.runs[r].states);
    op := DoRecord(SuccessFor(r, s.runs[r].defs[i], key));
    SuccessAdvances(d, s, r, i, key);
    ApplyKeepsInv(d, s, op);
  }

  /** Given unused keys, a completable run is completed by at most one successful result for each
      unsatisfied step. */
  lemma {:induction false} Drive(d: Digests, s: Store, r: string, keys: seq<string>) returns (ops: seq<Op>)
    requires AllShaped(s) && Inv(d, s) && r in s.runs && Completable(s.runs[r])
    requires Unused(keys, s.receipts) && |keys| >= UnsatisfiedCount(s.runs[r].states)
    ensures |ops| <= UnsatisfiedCount(s.runs[r].states)
    ensures AllSuccesses(ops, r)
    ensures var t := Execute(d, s, ops); r in t.runs && t.runs[r].state == Complete
    decreases UnsatisfiedCount(s.runs[r].states)
  {
    if s.runs[r].state == Complete {
      ops := [];
    } else {
      IncompleteCount(d, s, r);
      var op := NextSuccess(d, s, r, keys[0]);
      RestUnused(keys, s.receipts, Apply(d, s, op).receipts);
      var rest := Drive(d, Apply(d, s, op), r, keys[1..]);
      ops := [op] + rest;
      PrependSuccess(op, rest, r);
      ExecuteFirst(d, s, op, rest);
    }
  }

  lemma {:induction false} PositiveCount(st: seq<StepState>, i: nat)
    requires i < |st| && st[i] != Satisfied
    ensures UnsatisfiedCount(st) > 0
  {
    if i < |st| - 1 {
      PositiveCount(st[..|st| - 1], i);
    }
  }

  lemma ExecuteFirst(d: Digests, s: Store, op: Op, rest: seq<Op>)
    requires AllShaped(s)
    ensures Execute(d, s, [op] + rest) == Execute(d, Apply(d, s, op), rest)
  {
    assert ([op] + rest)[1..] == rest;
  }

  /** A first step planned as blocked and a step that depends on itself are never satisfied. */
  lemma StuckSteps(d: Digests, s: Store, r: string, i: nat)
    requires Inv(d, s) && r in s.runs && Shaped(s.runs[r]) && i < |s.runs[r].defs|
    ensures i == 0 && s.runs[r].defs[0].status == PlannedBlocked ==> s.runs[r].states[0] == Blocked
    ensures SelfDependent(s.runs[r].defs[i]) ==> s.runs[r].states[i] in {Pending, Blocked}
  {
    assert RunFits(d, s, r);
    assert StepFits(d, r, s.runs[r].defs, s.runs[r].states, s.runs[r].accepted, i);
  }

  /** Why step i stands in the way of completion for good. */
  predicate Stuck(run: Run, i: nat)
    requires Shaped(run) && i < |run.defs|
  {
    (i == 0 && run.defs[0].status == PlannedBlocked) || SelfDependent(run.defs[i]) || run.states[i] == Failed
  }

  lemma SomeStepIsStuck(run: Run) returns (i: nat)
    requires Shaped(run) && !Completable(run)
    ensures i < |run.defs| && Stuck(run, i)
  {
    if run.defs[0].status == PlannedBlocked {
      i := 0;
    } else if j :| 0 <= j < |run.defs| && SelfDependent(run.defs[j]) {
      i := j;
    } else {
      i :| 0 <= i < |run.states| && run.states[i] == Failed;
    }
  }

  lemma StuckForGood(d: Digests, t: Store, r: string, run: Run, i: nat)
    requires Inv(d, t) && r in t.runs && Shaped(run) && Shaped(t.runs[r])
    requires RunEvolves(run, t.runs[r]) && i < |run.defs| && Stuck(run, i)
    ensures t.runs[r].states[i] != Satisfied
  {
    StuckSteps(d, t, r, i);
  }

  /** A run that is not completable never completes, whatever is submitted. */
  lemma NeverCompletes(d: Digests, s: Store, r: string, ops: seq<Op>)
    requires AllShaped(s) && Inv(d, s) && r in s.runs && !Completable(s.runs[r])
    ensures var t := Execute(d, s, ops); r in t.runs && t.runs[r].state != Complete
  {
    HistoryOnlyGrows(d, s, ops);
    var t := Execute(d, s, ops);
    assert RunEvolves(s.runs[r], t.runs[r]) && Rested(t.runs[r]);
    var i := SomeStepIsStuck(s.runs[r]);
    StuckForGood(d, t, r, s.runs[r], i);
  }

  /** The exact condition: some sequence of operations completes the run iff it is completable. */
  lemma CompletableExactly(d: Digests, s: Store, r: string, keys: seq<string>)
    requires AllShaped(s) && Inv(d, s) && r in s.runs
    requires Unused(keys, s.receipts) && |keys| >= |s.runs[r].states|
    ensures Completable(s.runs[r]) <==>
      exists ops :: r in Execute(d, s, ops).runs && Execute(d, s, ops).runs[r].state == Complete
  {
    if Completable(s.runs[r]) {
      CountBound(s.runs[r].states);
      var ops := Drive(d, s, r, keys);
      assert r in Execute(d, s, ops).runs && Execute(d, s, ops).runs[r].state == Complete;
    } else {
      forall ops ensures !(r in Execute(d, s, ops).runs && Execute(d, s, ops).runs[r].state == Complete) {
        NeverCompletes(d, s, r, ops);
      }
    }
  }

  lemma {:induction false} CountBound(st: seq<StepState>)
    ensures UnsatisfiedCount(st) <= |st|
  {
    if st != [] { CountBound(st[..|st| - 1]); }
  }
}
