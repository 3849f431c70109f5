/**
 What the rule of GoalJournal means for a whole journal, in terms of positions in it.
 */
module GoalHistory {
  import opened Options
  import opened GoalRows
  import opened GoalJournal

  // Steers

  /** How many steers the first n events hold. */
  function SteersBefore(es: seq<Event>, n: nat): nat
    requires n <= |es|
  {
    if n == 0 then 0 else SteersBefore(es, n - 1) + (if es[n - 1].GoalSteered? then 1 else 0)
  }

  lemma {:induction false} ReadCountsSteers(b: Budget, es: seq<Event>, n: nat)
    requires n <= |es|
    ensures Read(b, es, n).steers == SteersBefore(es, n)
  {
    if n > 0 {
      ReadCountsSteers(b, es, n - 1);
    }
  }

  lemma {:induction false} SteersGrow(es: seq<Event>, m: nat, j: nat, n: nat)
    requires m <= j < n <= |es|
    ensures SteersBefore(es, m) <= SteersBefore(es, n)
    ensures es[j].GoalSteered? ==> SteersBefore(es, m) < SteersBefore(es, n)
  {
    if j < n - 1 {
      SteersGrow(es, m, j, n - 1);
    } else if m < n - 1 {
      SteersGrow(es, m, m, n - 1);
    }
  }

  /** The steer version that a decision rests on, if the event commits one. */
  function BasisOf(e: Event): Option<nat> {
    match e
    case Evaluated(_, _, basis) => Some(basis)
    case PlanCreated(_, _, basis) => Some(basis)
    case Verified(_, _, basis) => Some(basis)
    case _ => None
  }

  /** Every evaluation, plan and verification is committed under the very guidance that its context
      carried, every steer takes the next number, and an iteration is interrupted only when the
      guidance is really newer than the decision. */
  lemma DecisionsAreCurrent(b: Budget, es: seq<Event>, k: nat)
    requires Journal(b, es) && k < |es|
    ensures BasisOf(es[k]).Some? ==> BasisOf(es[k]) == Some(SteersBefore(es, k))
    ensures es[k].GoalSteered? ==> es[k].sequence == SteersBefore(es, k) + 1
    ensures es[k].ReevaluationScheduled? ==> es[k].observed < es[k].current == SteersBefore(es, k)
  {
    ReadCountsSteers(b, es, k);
    assert AllowedAt(b, es, k);
  }

  /** A plan rests on an evaluation of the same guidance exactly if nobody steered between the two
      commits: the plan's own context is current, the evaluation that it answers may not be. */
  lemma PlanMatchesItsEvaluation(b: Budget, es: seq<Event>, j: nat, k: nat)
    requires Journal(b, es) && j < k < |es| && es[j].Evaluated? && es[k].PlanCreated? && es[j].n == es[k].n
    ensures es[j].basis <= es[k].basis
    ensures es[j].basis == es[k].basis <==> NoSteerBetween(es, j, k)
  {
    DecisionsAreCurrent(b, es, j);
    DecisionsAreCurrent(b, es, k);
    SteersGrow(es, j, j, k);
    if NoSteerBetween(es, j, k) {
      NoSteersNoCount(es, j, k);
    } else {
      var m :| j <= m < k && es[m].GoalSteered?;
      SteersGrow(es, j, m, k);
    }
  }

  // What summaries keep as the journal grows

  predicate Later(s: Summary, t: Summary) {
    && s.steers <= t.steers && s.iterations <= t.iterations
    && s.evaluated <= t.evaluated && s.planned <= t.planned && s.verified <= t.verified
    && s.tasks <= t.tasks && s.failures <= t.failures
    && (Terminal(s.state) ==> t.state == s.state && t.reason == s.reason && t.steers == s.steers)
  }

  lemma NoteIsLater(b: Budget, s: Summary, e: Event)
    requires Sound(b, s) && Allowed(b, s, e)
    ensures Later(s, Note(b, s, e))
  {
  }

  lemma {:induction false} ReadsAreLater(b: Budget, es: seq<Event>, j: nat, k: nat)
    requires ValidBudget(b) && Journal(b, es) && j <= k <= |es|
    ensures Later(Read(b, es, j), Read(b, es, k))
  {
    if j < k {
      ReadsAreLater(b, es, j, k - 1);
      SummariesAreSound(b, es, k - 1);
      assert AllowedAt(b, es, k - 1);
      NoteIsLater(b, Read(b, es, k - 1), es[k - 1]);
    }
  }

  predicate SameDecision(d: Event, e: Event) {
    (d.Evaluated? && e.Evaluated?) || (d.PlanCreated? && e.PlanCreated?) || (d.Verified? && e.Verified?)
  }

  /** However often the engine dies and reloads its checkpoints, an iteration is evaluated, planned
      and verified at most once, and never after a later iteration was. */
  lemma DecisionsAreMadeOnce(b: Budget, es: seq<Event>, j: nat, k: nat)
    requires ValidBudget(b) && Journal(b, es) && j < k < |es| && SameDecision(es[j], es[k])
    ensures es[j].n < es[k].n
  {
    assert AllowedAt(b, es, j) && AllowedAt(b, es, k);
    assert Read(b, es, j + 1) == Note(b, Read(b, es, j), es[j]);
    ReadsAreLater(b, es, j + 1, k);
  }

  predicate Ends(e: Event) { e.GoalStopped? || e.GoalTerminated? }

  predicate IsLifecycle(e: Event) {
    Ends(e) || e.GoalStarted? || e.GoalPaused? || e.GoalResumed? || e.GoalSteered?
  }

  /** Being stopped or terminated is final: no start, pause, resume, steer, stop or termination
      follows it. */
  lemma EndsAreFinal(b: Budget, es: seq<Event>, j: nat, k: nat)
    requires ValidBudget(b) && Journal(b, es) && j < k < |es| && Ends(es[j])
    ensures !IsLifecycle(es[k])
  {
    assert AllowedAt(b, es, k);
    assert Terminal(Read(b, es, j + 1).state);
    ReadsAreLater(b, es, j + 1, k);
  }

  // Success

  lemma {:induction false} VerdictIsOnRecord(b: Budget, es: seq<Event>, n: nat) returns (j: nat)
    requires n <= |es| && Read(b, es, n).verified >= 1
    ensures j < n
    ensures es[j] == Verified(Read(b, es, n).verified, Read(b, es, n).verdict, Read(b, es, n).verdictBasis)
  {
    if es[n - 1].Verified? {
      j := n - 1;
    } else {
      j := VerdictIsOnRecord(b, es, n - 1);
    }
  }

  predicate NoSteerBetween(es: seq<Event>, j: nat, n: nat)
    requires n <= |es|
  {
    forall m :: j <= m < n ==> !es[m].GoalSteered?
  }

  predicate NoSteerFrom(es: seq<Event>, j: nat) { NoSteerBetween(es, j, |es|) }

  /** A goal ends in SUCCESS only by a satisfied verification, recorded earlier from a context that
      carried the goal's final steer version: nobody steered after that context was read. */
  lemma SuccessIsCurrent(b: Budget, es: seq<Event>, k: nat) returns (j: nat)
    requires ValidBudget(b) && Journal(b, es) && k < |es| && es[k] == GoalTerminated(Success)
    ensures j < k && es[j].Verified? && es[j].verification.satisfied
    ensures es[j].basis == SteersBefore(es, j) == SteersBefore(es, |es|)
    ensures NoSteerFrom(es, j)
  {
    assert AllowedAt(b, es, k);
    j := VerdictIsOnRecord(b, es, k);
    ReadCountsSteers(b, es, k);
    DecisionsAreCurrent(b, es, j);
    forall m | j <= m < |es|
      ensures !es[m].GoalSteered?
    {
      if m < k {
        SteersGrow(es, j, m, k);
      } else if k < m {
        EndsAreFinal(b, es, k, m);
      }
    }
    NoSteersNoCount(es, j, |es|);
  }

  lemma {:induction false} NoSteersNoCount(es: seq<Event>, j: nat, n: nat)
    requires j <= n <= |es| && NoSteerBetween(es, j, n)
    ensures SteersBefore(es, j) == SteersBefore(es, n)
  {
    if j < n {
      NoSteersNoCount(es, j, n - 1);
    }
  }

  // Progress fingerprints

  datatype Mark = Mark(evaluation: bool, fingerprint: string)

  function MarkOf(e: Event): Option<Mark> {
    match e
    case Evaluated(_, evaluation, _) => Some(Mark(true, evaluation.fingerprint))
    case ReplanRequired(_, fingerprint, _) => Some(Mark(false, fingerprint))
    case _ => None
  }

  /** The fingerprints that the first n events report. */
  function Marks(es: seq<Event>, n: nat): seq<Mark>
    requires n <= |es|
  {
    if n == 0 then []
    else if MarkOf(es[n - 1]).Some? then Marks(es, n - 1) + [MarkOf(es[n - 1]).value]
    else Marks(es, n - 1)
  }

  function LastPrint(h: seq<Mark>): Option<string> {
    if h == [] then None else Some(h[|h| - 1].fingerprint)
  }

  /** The count as it is kept: an evaluation adds one to an unchanged fingerprint, a replan nothing. */
  function Counted(streak: nat, last: Option<string>, m: Mark): nat {
    if last != Some(m.fingerprint) then 0 else if m.evaluation then streak + 1 else streak
  }

  /** h[s..] is the longest suffix of h in which the fingerprint never changes. */
  predicate LongestConstantSuffix(h: seq<Mark>, s: nat) {
    && s < |h|
    && (forall k :: s <= k < |h| ==> h[k].fingerprint == h[s].fingerprint)
    && (s > 0 ==> h[s - 1].fingerprint != h[s].fingerprint)
  }

  function Evaluations(h: seq<Mark>, s: nat): nat
    requires s <= |h|
    decreases |h|
  {
    if s == |h| then 0 else Evaluations(h[..|h| - 1], s) + (if h[|h| - 1].evaluation then 1 else 0)
  }

  /** One more mark either lengthens the constant suffix or starts a new one. */
  lemma SuffixGrows(h: seq<Mark>, m: Mark, s: nat)
    requires LongestConstantSuffix(h + [m], s)
    ensures s == |h| || (LongestConstantSuffix(h, s) && h[|h| - 1].fingerprint == m.fingerprint)
    ensures s == |h| && h != [] ==> h[|h| - 1].fingerprint != m.fingerprint
  {
    var g := h + [m];
    if s < |h| {
      assert g[|h| - 1] == h[|h| - 1] && g[|h|] == m && g[s] == h[s];
      assert forall k :: s <= k < |h| ==> h[k] == g[k];
      assert s > 0 ==> h[s - 1] == g[s - 1];
    }
  }

  lemma NoteCounts(b: Budget, s: Summary, e: Event)
    ensures MarkOf(e).Some? ==>
      && Note(b, s, e).fingerprint == Some(MarkOf(e).value.fingerprint)
      && Note(b, s, e).streak == Counted(s.streak, s.fingerprint, MarkOf(e).value)
    ensures MarkOf(e).None? ==> Note(b, s, e).fingerprint == s.fingerprint && Note(b, s, e).streak == s.streak
  {
  }

  lemma {:induction false} ReadKeepsLastPrint(b: Budget, es: seq<Event>, n: nat)
    requires n <= |es|
    ensures Read(b, es, n).fingerprint == LastPrint(Marks(es, n))
  {
    if n > 0 {
      ReadKeepsLastPrint(b, es, n - 1);
      NoteCounts(b, Read(b, es, n - 1), es[n - 1]);
    }
  }

  /** The step of the next lemma. */
  lemma CountedSuffix(h: seq<Mark>, m: Mark, s: nat, streak: nat)
    requires LongestConstantSuffix(h + [m], s)
    requires LongestConstantSuffix(h, s) ==> streak == Evaluations(h, s + 1)
    ensures Counted(streak, LastPrint(h), m) == Evaluations(h + [m], s + 1)
  {
    SuffixGrows(h, m, s);
    assert (h + [m])[..|h|] == h;
  }

  /** The no-progress count is the number of evaluations, its first entry apart, in the longest
      suffix of the reported fingerprints in which the fingerprint never changes. */
  lemma {:induction false} StreakCountsTheSuffix(b: Budget, es: seq<Event>, n: nat, s: nat)
    requires n <= |es| && LongestConstantSuffix(Marks(es, n), s)
    ensures Read(b, es, n).streak == Evaluations(Marks(es, n), s + 1)
  {
    var h := Marks(es, n - 1);
    ReadKeepsLastPrint(b, es, n - 1);
    NoteCounts(b, Read(b, es, n - 1), es[n - 1]);
    if LongestConstantSuffix(h, s) {
      StreakCountsTheSuffix(b, es, n - 1, s);
    }
    if MarkOf(es[n - 1]).Some? {
      CountedSuffix(h, MarkOf(es[n - 1]).value, s, Read(b, es, n - 1).streak);
    }
  }

  /** A plan is only ever made below the no-progress limit. */
  lemma PlansAreBelowTheLimit(b: Budget, es: seq<Event>, k: nat, s: nat)
    requires Journal(b, es) && k < |es| && es[k].PlanCreated?
    requires LongestConstantSuffix(Marks(es, k), s)
    ensures Evaluations(Marks(es, k), s + 1) < b.noProgressLimit
  {
    assert AllowedAt(b, es, k);
    StreakCountsTheSuffix(b, es, k, s);
  }

  lemma {:induction false} StallLasts(b: Budget, es: seq<Event>, j: nat, k: nat)
    requires Journal(b, es) && j <= k <= |es| && Read(b, es, j).stalled
    requires forall m :: j <= m < k ==> !es[m].GoalSteered?
    ensures Read(b, es, k).stalled
  {
    if j < k {
      StallLasts(b, es, j, k - 1);
      assert AllowedAt(b, es, k - 1);
    }
  }

  /** An incomplete evaluation at the no-progress limit. */
  predicate AtLimit(b: Budget, es: seq<Event>, j: nat, s: nat)
    requires j < |es|
  {
    && es[j].Evaluated? && es[j].evaluation.disposition.Incomplete?
    && LongestConstantSuffix(Marks(es, j + 1), s)
    && Evaluations(Marks(es, j + 1), s + 1) >= b.noProgressLimit
  }

  /** Unless somebody steers, an incomplete evaluation at the limit is the last one of the goal:
      nothing is planned, evaluated or replanned after it, and a termination that follows can only
      be NO_PROGRESS. */
  lemma TheLimitEndsTheGoal(b: Budget, es: seq<Event>, j: nat, s: nat, k: nat)
    requires ValidBudget(b) && Journal(b, es) && j < k < |es| && AtLimit(b, es, j, s)
    requires forall m :: j <= m < k ==> !es[m].GoalSteered?
    ensures !es[k].Evaluated? && !es[k].PlanCreated? && !es[k].ReplanRequired?
    ensures es[k].GoalTerminated? ==> es[k].reason == NoProgress
  {
    StreakCountsTheSuffix(b, es, j + 1, s);
    assert Read(b, es, j + 1).stalled;
    StallLasts(b, es, j + 1, k);
    SummariesAreSound(b, es, k);
    assert AllowedAt(b, es, k);
  }

  /** How many of the events from position j up to n are evaluations. */
  function EvaluationsBetween(es: seq<Event>, j: nat, n: nat): nat
    requires j <= n <= |es|
  {
    if n == j then 0 else EvaluationsBetween(es, j, n - 1) + (if es[n - 1].Evaluated? then 1 else 0)
  }

  /** Nobody steers, and everything reported is incomplete and of one fingerprint. */
  predicate NoProgressBetween(es: seq<Event>, j: nat, n: nat, fingerprint: string)
    requires n <= |es|
  {
    forall m :: j <= m < n ==>
      && !es[m].GoalSteered?
      && (MarkOf(es[m]).Some? ==> MarkOf(es[m]).value.fingerprint == fingerprint)
      && (es[m].Evaluated? ==> es[m].evaluation.disposition.Incomplete?)
  }

  lemma {:induction false} StreakKeepsUp(b: Budget, es: seq<Event>, j: nat, n: nat, fingerprint: string)
    requires ValidBudget(b) && Journal(b, es) && j <= n <= |es| && NoProgressBetween(es, j, n, fingerprint)
    ensures var count, s := EvaluationsBetween(es, j, n), Read(b, es, n);
            && count <= b.noProgressLimit + 1
            && (count >= 1 ==> s.fingerprint == Some(fingerprint) && s.streak >= count - 1)
            && (count > b.noProgressLimit ==> s.stalled)
  {
    if j < n {
      StreakKeepsUp(b, es, j, n - 1, fingerprint);
      assert AllowedAt(b, es, n - 1);
      NoteCounts(b, Read(b, es, n - 1), es[n - 1]);
    }
  }

  /** While the fingerprint stays the same, the goal stays incomplete and nobody steers, a goal is
      evaluated at most no_progress_limit + 1 times. */
  lemma EvaluationsWithoutProgressAreBounded(b: Budget, es: seq<Event>, j: nat, n: nat, fingerprint: string)
    requires ValidBudget(b) && Journal(b, es) && j <= n <= |es| && NoProgressBetween(es, j, n, fingerprint)
    ensures EvaluationsBetween(es, j, n) <= b.noProgressLimit + 1
  {
    StreakKeepsUp(b, es, j, n, fingerprint);
  }

  // Budgets

  function PlannedActionsBefore(es: seq<Event>, n: nat): nat
    requires n <= |es|
  {
    if n == 0 then 0 else PlannedActionsBefore(es, n - 1) + (if es[n - 1].PlanCreated? then |es[n - 1].keys| else 0)
  }

  /** At any moment the goal has planned at most max_tasks actions, in at most max_iterations
      iterations, numbered from one without a gap. */
  lemma {:induction false} BudgetsHold(b: Budget, es: seq<Event>, n: nat)
    requires ValidBudget(b) && Journal(b, es) && n <= |es|
    ensures PlannedActionsBefore(es, n) == Read(b, es, n).tasks <= b.maxTasks
    ensures Read(b, es, n).iterations <= b.maxIterations
    ensures n > 0 && es[n - 1].IterationStarted? ==>
        es[n - 1].n == Read(b, es, n - 1).iterations + 1 == Read(b, es, n).iterations
  {
    SummariesAreSound(b, es, n);
    if n > 0 {
      assert AllowedAt(b, es, n - 1);
      BudgetsHold(b, es, n - 1);
    }
  }
}
