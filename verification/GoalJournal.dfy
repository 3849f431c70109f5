/**
 What the event journal of an autonomous goal says by itself: a summary read off the events alone,
 the rule that every event of a goal obeys, and what that rule means for whole journals.
 */
module GoalJournal {
  import opened Options
  import opened GoalRows

  /** Everything that the events so far determine. stalled: the last evaluation was incomplete and
      at the no-progress limit, and nobody has steered since. */
  datatype Summary = Summary(
    state: GoalState, reason: Option<Reason>, steers: nat, iterations: nat,
    evaluated: nat, disposition: Disposition, evaluationBasis: nat,
    planned: nat,
    verified: nat, verdict: Verification, verdictBasis: nat,
    tasks: nat, failures: nat, replanned: nat, reported: nat,
    fingerprint: Option<string>, streak: nat, stalled: bool)

  const BLANK := Summary(
    Created, None, 0, 0, 0, Incomplete, 0, 0, 0, Verification(false, "", None), 0, 0, 0, 0, 0, None, 0, false)

  function Note(b: Budget, s: Summary, e: Event): Summary {
    match e
    case GoalStarted => s.(state := Running)
    case GoalPaused(mode) => s.(state := PausedState(mode))
    case GoalResumed => s.(state := Running)
    case GoalSteered(_, _) => s.(steers := s.steers + 1, stalled := false)
    case GoalStopped => s.(state := Stopped, reason := Some(UserStopped))
    case GoalTerminated(reason) => s.(state := Terminated, reason := Some(reason))
    case IterationStarted(_) => s.(iterations := s.iterations + 1)
    case Evaluated(n, evaluation, basis) =>
      var streak := if s.fingerprint == Some(evaluation.fingerprint) then s.streak + 1 else 0;
      s.(evaluated := n, disposition := evaluation.disposition, evaluationBasis := basis,
         fingerprint := Some(evaluation.fingerprint), streak := streak,
         stalled := evaluation.disposition.Incomplete? && streak >= b.noProgressLimit)
    case PlanCreated(n, keys, _) => s.(planned := n, tasks := s.tasks + |keys|)
    case Verified(n, verification, basis) => s.(verified := n, verdict := verification, verdictBasis := basis)
    case ReplanRequired(n, fingerprint, failedActions) =>
      s.(replanned := n, reported := failedActions, fingerprint := Some(fingerprint),
         streak := if s.fingerprint == Some(fingerprint) then s.streak else 0,
         failures := s.failures + failedActions)
    case GoalCreated => s
    case ReevaluationScheduled(_, _, _) => s
    case ActionChanged(_, _, _) => s
    case CancellationRequested(_, _) => s
  }

  /** The summary of the first n events. */
  function Read(b: Budget, es: seq<Event>, n: nat): Summary
    requires n <= |es|
  {
    if n == 0 then BLANK else Note(b, Read(b, es, n - 1), es[n - 1])
  }

  /** The rule for an event that follows events with summary s. */
  predicate Allowed(b: Budget, s: Summary, e: Event) {
    match e
    case GoalCreated => s == BLANK
    case GoalStarted => s.state.Created?
    case GoalPaused(mode) => !Terminal(s.state) && s.state != PausedState(mode)
    case GoalResumed => Paused(s.state)
    case GoalSteered(sequence, _) => !Terminal(s.state) && sequence == s.steers + 1
    case GoalStopped => !Terminal(s.state)
    case GoalTerminated(reason) =>
      && !Terminal(s.state)
      && (reason.Success? ==>
            && s.verified == s.iterations >= 1 && s.verdict.satisfied && s.verdictBasis == s.steers)
      && (s.stalled ==> reason.NoProgress?)
    case IterationStarted(n) => n == s.iterations + 1 <= b.maxIterations && s.failures < b.maxFailures
    case Evaluated(n, _, basis) => s.evaluated < n == s.iterations && basis == s.steers && !s.stalled
        && !s.state.Terminated?
    case PlanCreated(n, keys, basis) =>
      && s.planned < n == s.evaluated == s.iterations && s.disposition.Incomplete? && basis == s.steers
      && 1 <= |keys| && s.tasks + |keys| <= b.maxTasks && s.streak < b.noProgressLimit
    case Verified(n, _, basis) => s.verified < n == s.evaluated == s.iterations && basis == s.steers
    case ReevaluationScheduled(n, observed, current) => n == s.iterations && observed < current == s.steers
    case ReplanRequired(n, fingerprint, _) =>
      && 1 <= n == s.verified == s.iterations && !s.stalled
      && !s.verdict.satisfied && s.verdict.reason.None? && fingerprint == s.verdict.fingerprint
    case ActionChanged(n, _, _) => n == s.planned == s.iterations
    case CancellationRequested(n, _) => n == s.planned == s.iterations
  }

  predicate AllowedAt(b: Budget, es: seq<Event>, k: nat)
    requires k < |es|
  {
    Allowed(b, Read(b, es, k), es[k])
  }

  ghost predicate Journal(b: Budget, es: seq<Event>) {
    forall k :: 0 <= k < |es| ==> AllowedAt(b, es, k)
  }

  lemma {:induction false} ReadPrefix(b: Budget, es: seq<Event>, more: seq<Event>, n: nat)
    requires n <= |es|
    ensures Read(b, es + more, n) == Read(b, es, n)
  {
    if n > 0 {
      ReadPrefix(b, es, more, n - 1);
      assert (es + more)[n - 1] == es[n - 1];
    }
  }

  lemma AllowedBefore(b: Budget, es: seq<Event>, e: Event, k: nat)
    requires k < |es| && AllowedAt(b, es, k)
    ensures AllowedAt(b, es + [e], k)
  {
    ReadPrefix(b, es, [e], k);
    assert (es + [e])[k] == es[k];
  }

  lemma ReadOneMore(b: Budget, es: seq<Event>, e: Event)
    ensures Read(b, es + [e], |es| + 1) == Note(b, Read(b, es, |es|), e)
    ensures Allowed(b, Read(b, es, |es|), e) ==> AllowedAt(b, es + [e], |es|)
  {
    ReadPrefix(b, es, [e], |es|);
    assert (es + [e])[|es|] == e;
  }

  /** One more event extends the summary by that event and keeps the journal. */
  lemma Extend(b: Budget, es: seq<Event>, e: Event)
    requires Journal(b, es) && Allowed(b, Read(b, es, |es|), e)
    ensures Journal(b, es + [e]) && Read(b, es + [e], |es| + 1) == Note(b, Read(b, es, |es|), e)
  {
    ReadOneMore(b, es, e);
    forall k | 0 <= k < |es + [e]|
      ensures AllowedAt(b, es + [e], k)
    {
      if k < |es| {
        AllowedBefore(b, es, e, k);
      }
    }
  }

  /** What holds of the summary of any journal. */
  predicate Sound(b: Budget, s: Summary) {
    && (Terminal(s.state) <==> s.reason.Some?)
    && (s.state.Stopped? ==> s.reason == Some(UserStopped))
    && s.planned <= s.evaluated <= s.iterations <= b.maxIterations && s.replanned <= s.verified <= s.evaluated
    && s.tasks <= b.maxTasks
    && s.evaluationBasis <= s.steers && s.verdictBasis <= s.steers
    && (s.stalled ==> StallIsSound(b, s))
  }

  predicate StallIsSound(b: Budget, s: Summary) {
    && s.disposition.Incomplete? && s.evaluationBasis == s.steers && s.planned < s.evaluated
    && s.streak >= b.noProgressLimit
    && (s.state.Terminated? ==> s.reason == Some(NoProgress))
  }

  lemma NoteIsSound(b: Budget, s: Summary, e: Event)
    requires Sound(b, s) && Allowed(b, s, e)
    ensures Sound(b, Note(b, s, e))
  {
  }

  lemma {:induction false} SummariesAreSound(b: Budget, es: seq<Event>, n: nat)
    requires ValidBudget(b) && Journal(b, es) && n <= |es|
    ensures Sound(b, Read(b, es, n))
  {
    if n > 0 {
      SummariesAreSound(b, es, n - 1);
      assert AllowedAt(b, es, n - 1);
      NoteIsSound(b, Read(b, es, n - 1), es[n - 1]);
    }
  }
}
