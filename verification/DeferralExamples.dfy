/**
 Where the capacity probe is wrong about the next routing decision: concrete workers and pools, under the
 default weights.
 */
module DeferralExamples {
  import opened Options
  import opened Scheduler
  import opened SchedulerTheorems
  import opened DefaultScores
  import opened Capacity
  import opened Routing
  import opened RoutingTheorems
  import opened Deferral
  import G = QuotaGuard
  import T = QuotaGuardTheorems

  // What the guard says of one worker

  function PoolState(req: Requirements, l: Ledger, now: int, w: Worker): G.Finding {
    G.FindingOf(l.latest, now, CandidateOf(req, l, w))
  }

  lemma CandidateIn(req: Requirements, l: Ledger, ws: seq<Worker>, w: Worker)
    requires w in ws
    ensures CandidateOf(req, l, w) in CandidatesOf(req, l, ws)
  {
    var k :| 0 <= k < |ws| && ws[k] == w;
    assert CandidatesOf(req, l, ws)[k] == CandidateOf(req, l, w);
  }

  /** A worker that meets the task and whose pool is known to be available is cleared. */
  lemma AvailableIsCleared(req: Requirements, l: Ledger, now: int, ws: seq<Worker>, w: Worker)
    requires DistinctIds(ws) && w in ws && Meets(req, w) && PoolState(req, l, now, w).state.Available?
    ensures Cleared(req, l, now, ws, w)
  {
    var cs, c := CandidatesOf(req, l, ws), CandidateOf(req, l, w);
    CandidatesAreDistinct(req, l, ws);
    CandidateIn(req, l, ws, w);
    T.OwnState(l.latest, now, cs, c);
    T.ListedExactly(l.latest, now, cs, c);
  }

  /** The health that a routing decision goes by. */
  lemma HealthNow(req: Requirements, l: Ledger, now: int, ws: seq<Worker>, w: Worker)
    requires DistinctIds(ws) && w in ws
    ensures HealthOf(EvidenceNow(req, ws, l, now), w.id)
         == Some(if Meets(req, w) then G.HealthScore(PoolState(req, l, now, w)) else 0.25)
  {
    CandidatesAreDistinct(req, l, ws);
    CandidateIn(req, l, ws, w);
    T.OwnHealth(l.latest, now, CandidatesOf(req, l, ws), CandidateOf(req, l, w));
    var k :| 0 <= k < |ws| && ws[k] == w;
    assert w.id in EvidenceNow(req, ws, l, now);
  }

  // A blocked review that becomes possible

  function Rested(w: Worker): Worker { w.(state := Idle) }

  const TRUSTED := G.Finding(G.Available, G.Fresh, G.ProviderReported, None)

  /** Two workers alike in everything that is scored but quality. */
  predicate AlikeButQuality(req: Requirements, a: Worker, r: Worker) {
    && Clamp(a.quality) == 0.6 && Clamp(r.quality) == 0.5
    && forall k :: 0 <= k < 10 && k != 1 && k != 3 ==> Components(req, a, None)[k] == Components(req, r, None)[k]
  }

  /** A busy worker that cannot review and is a little better than an idle one that can, with pools known
      to be available. */
  predicate Trap(req: Requirements, l: Ledger, now: int, a: Worker, r: Worker) {
    && Busy(a) && a.id != r.id && Meets(req, Rested(a)) && Meets(req, r)
    && "review" in r.capabilities && "review" !in a.capabilities
    && PoolState(req, l, now, Rested(a)) == TRUSTED == PoolState(req, l, now, r)
    && AlikeButQuality(req, Rested(a), r)
  }

  lemma HealthIsOneComponent(req: Requirements, w: Worker, health: real)
    ensures Components(req, w, Some(health)) == Components(req, w, None)[3 := health]
    ensures Components(req, w, None)[1] == Clamp(w.quality)
  {
  }

  lemma HealthDecides(cfg: Config, req: Requirements, ev: Evidence, v: Worker, w: Worker, x: real, y: real)
    requires Default(cfg) && HealthOf(ev, v.id) == Some(x) && HealthOf(ev, w.id) == Some(y)
    requires forall k :: 0 <= k < 10 && k != 1 && k != 3 ==> Components(req, v, None)[k] == Components(req, w, None)[k]
    requires 2.0 * (Clamp(w.quality) - Clamp(v.quality)) + 1.5 * (y - x) >= 0.1
    ensures Score(cfg, req, ev, v) < Score(cfg, req, ev, w)
  {
    HealthIsOneComponent(req, v, x);
    HealthIsOneComponent(req, w, y);
    MarginDecides(cfg, req, ev, v, w);
  }

  predicate OfTwo(ws: seq<Worker>, a: Worker, r: Worker) { forall w :: w in ws ==> w == a || w == r }

  /** The candidates are these two. */
  predicate Just(ws: seq<Worker>, a: Worker, r: Worker) { DistinctIds(ws) && a in ws && r in ws && OfTwo(ws, a, r) }

  lemma ReviewerAheadBefore(cfg: Config, req: Requirements, l: Ledger, now: int, ws: seq<Worker>, a: Worker, r: Worker)
    ensures Default(cfg) && Just(ws, a, r) && Trap(req, l, now, a, r) ==>
      Ahead(cfg, req, EvidenceNow(req, ws, l, now), r, Rested(a))
  {
    if Default(cfg) && Just(ws, a, r) && Trap(req, l, now, a, r) {
      HealthNow(req, l, now, ws, a);
      HealthNow(req, l, now, ws, r);
      HealthDecides(cfg, req, EvidenceNow(req, ws, l, now), Rested(a), r, 0.25, 1.0);
    }
  }

  lemma BusyAheadAfter(cfg: Config, req: Requirements, l: Ledger, now: int, us: seq<Worker>, a: Worker, r: Worker)
    requires Default(cfg) && Just(us, Rested(a), r) && Trap(req, l, now, a, r)
    ensures Ahead(cfg, req, EvidenceNow(req, us, l, now), Rested(a), r)
  {
    HealthNow(req, l, now, us, Rested(a));
    HealthNow(req, l, now, us, r);
    HealthDecides(cfg, req, EvidenceNow(req, us, l, now), r, Rested(a), 1.0, 1.0);
  }

  lemma ProbedOfTwo(req: Requirements, l: Ledger, now: int, ws: seq<Worker>, a: Worker, r: Worker, w: Worker)
    ensures Just(ws, a, r) && Busy(a) && !Busy(r) && w in Probed(req, ws, l, now) ==> w == Rested(a) || w == r
  {
    if Just(ws, a, r) && w in Probed(req, ws, l, now) {
      var k := ProbedWasKept(req, ws, l, now, w);
      assert ws[k] in ws;
    }
  }

  lemma ReviewerIsProbed(req: Requirements, l: Ledger, now: int, ws: seq<Worker>, a: Worker, r: Worker)
    ensures Just(ws, a, r) && Trap(req, l, now, a, r) ==> r in Probed(req, ws, l, now)
  {
    if Just(ws, a, r) && Trap(req, l, now, a, r) {
      AvailableIsCleared(req, l, now, ws, r);
      ClearedIsKept(req, ws, l, now, r);
      KeptIsProbed(req, ws, l, now, r);
    }
  }

  lemma NoPair(
      cfg: Config, req: Requirements, l: Ledger, now: int, ws: seq<Worker>, a: Worker, r: Worker, t: Worker,
      u: Worker)
    ensures Just(ws, a, r) && Busy(a) ==> !Pair(cfg, req, ws, l, now, t, u)
  {
    PairMeets(cfg, req, ws, l, now, t, u);
    assert Busy(a) ==> !Meets(req, a);
  }

  lemma NoPairBefore(cfg: Config, req: Requirements, l: Ledger, now: int, ws: seq<Worker>, a: Worker, r: Worker)
    ensures Just(ws, a, r) && Busy(a) ==> RouteDecision(cfg, req, PrimaryReviewer, ws, l, now).selected == []
  {
    if Just(ws, a, r) && Busy(a) {
      ReviewIsRoutedExactly(cfg, req, ws, l, now);
      forall t, u
        ensures !Pair(cfg, req, ws, l, now, t, u)
      {
        NoPair(cfg, req, l, now, ws, a, r, t, u);
      }
    }
  }

  /** Of two workers the one ahead is the only one that can review. */
  predicate LoneReviewer(cfg: Config, req: Requirements, ps: seq<Worker>, ev: Evidence, x: Worker, r: Worker) {
    && DistinctIds(ps) && r in ps && OfTwo(ps, x, r)
    && Meets(req, r) && "review" !in x.capabilities && Ahead(cfg, req, ev, r, x)
  }

  lemma LoneReviewerIsNotEnough(cfg: Config, req: Requirements, ps: seq<Worker>, ev: Evidence, x: Worker, r: Worker)
    ensures LoneReviewer(cfg, req, ps, ev, x, r) ==> Decide(cfg, req, PrimaryReviewer, ps, ev).selected == []
  {
    if LoneReviewer(cfg, req, ps, ev, x, r) {
      assert Top(cfg, req, ps, ev, r);
      var reviewer := PrimaryAndReviewer(cfg, req, ps, ev, r);
    }
  }

  lemma ProbedAreTwo(req: Requirements, l: Ledger, now: int, ws: seq<Worker>, a: Worker, r: Worker)
    ensures Just(ws, a, r) && Busy(a) && !Busy(r) ==> OfTwo(Probed(req, ws, l, now), Rested(a), r)
  {
    forall v
      ensures Just(ws, a, r) && Busy(a) && !Busy(r) && v in Probed(req, ws, l, now) ==> v == Rested(a) || v == r
    {
      ProbedOfTwo(req, l, now, ws, a, r, v);
    }
  }

  lemma TrapParts(req: Requirements, l: Ledger, now: int, a: Worker, r: Worker)
    ensures Trap(req, l, now, a, r) ==> Busy(a) && !Busy(r) && Meets(req, r) && "review" !in Rested(a).capabilities
  {
  }

  lemma TrapSetsALoneReviewer(
      cfg: Config, req: Requirements, l: Ledger, now: int, ws: seq<Worker>, a: Worker, r: Worker)
    ensures Default(cfg) && Just(ws, a, r) && Trap(req, l, now, a, r) ==>
      LoneReviewer(cfg, req, Probed(req, ws, l, now), EvidenceNow(req, ws, l, now), Rested(a), r)
  {
    if Just(ws, a, r) {
      ProbedIsDistinct(req, ws, l, now);
    }
    ReviewerIsProbed(req, l, now, ws, a, r);
    ReviewerAheadBefore(cfg, req, l, now, ws, a, r);
    ProbedAreTwo(req, l, now, ws, a, r);
    TrapParts(req, l, now, a, r);
  }

  lemma ProbeIsTrapped(cfg: Config, req: Requirements, l: Ledger, now: int, ws: seq<Worker>, a: Worker, r: Worker)
    ensures Default(cfg) && Just(ws, a, r) && Trap(req, l, now, a, r) ==>
      Decide(cfg, req, PrimaryReviewer, Probed(req, ws, l, now), EvidenceNow(req, ws, l, now)).selected == []
  {
    TrapSetsALoneReviewer(cfg, req, l, now, ws, a, r);
    LoneReviewerIsNotEnough(cfg, req, Probed(req, ws, l, now), EvidenceNow(req, ws, l, now), Rested(a), r);
  }

  lemma ReviewIsPossibleAfter(
      cfg: Config, req: Requirements, l: Ledger, now: int, us: seq<Worker>, a: Worker, r: Worker)
    ensures Default(cfg) && Just(us, Rested(a), r) && Trap(req, l, now, a, r) ==>
      RouteDecision(cfg, req, PrimaryReviewer, us, l, now).selected != []
  {
    if Default(cfg) && Just(us, Rested(a), r) && Trap(req, l, now, a, r) {
      AvailableIsCleared(req, l, now, us, Rested(a));
      AvailableIsCleared(req, l, now, us, r);
      BusyAheadAfter(cfg, req, l, now, us, a, r);
      PairIsSelected(cfg, req, us, l, now, Rested(a), r);
    }
  }

  lemma JustFreed(ws: seq<Worker>, a: Worker, r: Worker)
    ensures Just(ws, a, r) && Busy(a) && !Busy(r) ==> Just(Freed(ws, {a.id}), Rested(a), r)
  {
    if Just(ws, a, r) && Busy(a) && !Busy(r) {
      var us := Freed(ws, {a.id});
      FreedIsDistinct(ws, {a.id});
      var i :| 0 <= i < |ws| && ws[i] == a;
      var j :| 0 <= j < |ws| && ws[j] == r;
      assert us[i] == Rested(a) && us[j] == r;
      forall w | w in us
        ensures w == Rested(a) || w == r
      {
        var k :| 0 <= k < |us| && us[k] == w;
        assert ws[k] in ws;
      }
    }
  }

  /** Whenever two workers are in that position, the task is blocked and not deferred, although both are
      selected as soon as the busy one is idle: the probe ranks the reviewer first only because it takes
      the busy worker's pool for unknown. */
  lemma TrapSprings(cfg: Config, req: Requirements, l: Ledger, now: int, ws: seq<Worker>, a: Worker, r: Worker)
    requires Default(cfg) && Just(ws, a, r) && Trap(req, l, now, a, r)
    ensures BlockedNow(cfg, req, PrimaryReviewer, ws, l, now)
    ensures RouteDecision(cfg, req, PrimaryReviewer, Freed(ws, {a.id}), l, now).selected != []
  {
    TrapParts(req, l, now, a, r);
    NoPairBefore(cfg, req, l, now, ws, a, r);
    ProbeIsTrapped(cfg, req, l, now, ws, a, r);
    EmptyProbeBlocks(cfg, req, PrimaryReviewer, ws, l, now);
    JustFreed(ws, a, r);
    ReviewIsPossibleAfter(cfg, req, l, now, Freed(ws, {a.id}), a, r);
  }

  const ANY := Requirements({}, Green, NotRequired, None, false, false, 2, [])

  function Sample(id: string, state: WorkerState, capabilities: set<string>, quality: real): Worker {
    Worker(id, "p", state, NodeOnline, Available, capabilities, true, true, None, quality, 0.5, 30.0, 0.5, 0.0)
  }

  function Seen(q: G.QuotaState): G.Observation { G.Observation("p", q, G.ProviderReported, G.Exact, Some(0)) }

  lemma TrapExists() returns (ws: seq<Worker>, l: Ledger, a: Worker, r: Worker)
    ensures Just(ws, a, r) && Trap(ANY, l, 0, a, r)
  {
    l := Ledger(map["a" := "pa", "r" := "pr"], map["pa" := Seen(G.Available), "pr" := Seen(G.Available)]);
    a, r := Sample("a", Running, {}, 0.6), Sample("r", Idle, {"review"}, 0.5);
    ws := [a, r];
    assert ws[0] == a && ws[1] == r;
  }

  /** Such workers exist: blocking a task for a primary and a reviewer is not sound. */
  lemma BlockedReviewCanBecomePossible(cfg: Config) returns (ws: seq<Worker>, l: Ledger, id: string)
    requires Default(cfg)
    ensures DistinctIds(ws) && BlockedNow(cfg, ANY, PrimaryReviewer, ws, l, 0)
    ensures RouteDecision(cfg, ANY, PrimaryReviewer, Freed(ws, {id}), l, 0).selected != []
  {
    var a, r;
    ws, l, a, r := TrapExists();
    id := a.id;
    TrapSprings(cfg, ANY, l, 0, ws, a, r);
  }

  // A deferral in vain

  /** A busy worker, alone, that could do the task but for its pool, which is known to be exhausted. */
  predicate Vain(req: Requirements, l: Ledger, now: int, b: Worker) {
    Busy(b) && Meets(req, Rested(b)) && KnownExhausted(req, l, now, Rested(b))
  }

  /** Every candidate is this worker. */
  predicate Alone(ws: seq<Worker>, b: Worker) { DistinctIds(ws) && b in ws && forall w :: w in ws ==> w == b }

  lemma NobodyUnspent(
      cfg: Config, req: Requirements, topology: Topology, l: Ledger, now: int, b: Worker, us: seq<Worker>, u: Worker)
    requires Vain(req, l, now, b) && OneWorker(topology) && Alone(us, u) && (u == b || u == Rested(b))
    ensures RouteDecision(cfg, req, topology, us, l, now).selected == []
  {
    FoundExactlyIfAvailable(cfg, req, topology, us, l, now);
  }

  lemma VainIsDeferred(
      cfg: Config, req: Requirements, topology: Topology, l: Ledger, now: int, ws: seq<Worker>, b: Worker)
    requires Vain(req, l, now, b) && OneWorker(topology) && Alone(ws, b)
    ensures Deferred(cfg, req, topology, ws, l, now)
  {
    BusyIsProbed(req, ws, l, now, b);
    DeferredIfProbed(cfg, req, topology, ws, l, now, b);
  }

  lemma AloneFreed(ws: seq<Worker>, b: Worker, ids: set<string>) returns (u: Worker)
    requires Alone(ws, b) && Busy(b)
    ensures Alone(Freed(ws, ids), u) && (u == b || u == Rested(b))
  {
    u := if b.id in ids then Rested(b) else b;
    var us := Freed(ws, ids);
    FreedIsDistinct(ws, ids);
    var i :| 0 <= i < |ws| && ws[i] == b;
    assert us[i] == u;
    forall w | w in us
      ensures w == u
    {
      var k :| 0 <= k < |us| && us[k] == w;
      assert ws[k] in ws;
    }
  }

  /** Such a worker's task is deferred although nobody is selected whoever becomes idle. */
  lemma VainIsInVain(
      cfg: Config, req: Requirements, topology: Topology, l: Ledger, now: int, ws: seq<Worker>, b: Worker,
      ids: set<string>)
    requires Vain(req, l, now, b) && OneWorker(topology) && Alone(ws, b)
    ensures RouteDecision(cfg, req, topology, ws, l, now).selected == [] && Deferred(cfg, req, topology, ws, l, now)
    ensures RouteDecision(cfg, req, topology, Freed(ws, ids), l, now).selected == []
  {
    NobodyUnspent(cfg, req, topology, l, now, b, ws, b);
    VainIsDeferred(cfg, req, topology, l, now, ws, b);
    var u := AloneFreed(ws, b, ids);
    NobodyUnspent(cfg, req, topology, l, now, b, Freed(ws, ids), u);
  }

  lemma VainExists() returns (ws: seq<Worker>, l: Ledger, b: Worker)
    ensures Alone(ws, b) && Vain(ANY, l, 0, b)
  {
    b, l := Sample("a", Running, {}, 0.6), Ledger(map["a" := "pa"], map["pa" := Seen(G.Exhausted)]);
    ws := [b];
    assert ws[0] == b;
  }

  /** Such workers exist too: waiting for a deferred task can be in vain. */
  lemma DeferralCanBeInVain(cfg: Config, ids: set<string>) returns (ws: seq<Worker>, l: Ledger)
    ensures RouteDecision(cfg, ANY, Single, ws, l, 0).selected == [] && Deferred(cfg, ANY, Single, ws, l, 0)
    ensures RouteDecision(cfg, ANY, Single, Freed(ws, ids), l, 0).selected == []
  {
    var b;
    ws, l, b := VainExists();
    VainIsInVain(cfg, ANY, Single, l, 0, ws, b, ids);
  }
}
