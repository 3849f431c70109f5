/**
 Deferring a task because its workers are busy (src/project_supervisor/runtime.py).

 A task that nobody was selected for is deferred if a probe, which pretends that all busy workers are
 idle, selects somebody. The probe keeps the evidence of the routing decision, in which a busy worker
 counts as unknown; the next routing decision consults the guard again. This module says exactly what
 the probe foretells of that decision, for every topology.
 */
module Deferral {
  import opened Ordering
  import opened Scheduler
  import opened SchedulerTheorems
  import opened Capacity
  import opened Routing
  import opened RoutingTheorems
  import T = QuotaGuardTheorems

  function KeptNow(req: Requirements, ws: seq<Worker>, l: Ledger, now: int): seq<Worker> {
    Kept(req, VerdictOn(req, l, now, ws), ws)
  }

  function EvidenceNow(req: Requirements, ws: seq<Worker>, l: Ledger, now: int): Evidence {
    HealthMap(VerdictOn(req, l, now, ws), ws)
  }

  /** The workers that the probe is shown. */
  function Probed(req: Requirements, ws: seq<Worker>, l: Ledger, now: int): seq<Worker> {
    Freed(KeptNow(req, ws, l, now), AllIds(KeptNow(req, ws, l, now)))
  }

  /** A task that nobody was selected for is deferred. */
  predicate Deferred(cfg: Config, req: Requirements, topology: Topology, ws: seq<Worker>, l: Ledger, now: int) {
    TransientCapacityPossible(cfg, req, topology, KeptNow(req, ws, l, now), EvidenceNow(req, ws, l, now))
  }

  /** Nobody is selected and the task is not deferred, so it is blocked. */
  predicate BlockedNow(cfg: Config, req: Requirements, topology: Topology, ws: seq<Worker>, l: Ledger, now: int) {
    && RouteDecision(cfg, req, topology, ws, l, now).selected == []
    && !Deferred(cfg, req, topology, ws, l, now)
  }

  // From the next decision back to the probe

  lemma FreedIsDistinct(ws: seq<Worker>, ids: set<string>)
    requires DistinctIds(ws)
    ensures DistinctIds(Freed(ws, ids))
  {
  }

  lemma ProbedIsDistinct(req: Requirements, ws: seq<Worker>, l: Ledger, now: int)
    requires DistinctIds(ws)
    ensures DistinctIds(KeptNow(req, ws, l, now)) && DistinctIds(Probed(req, ws, l, now))
  {
    KeptIsDistinct(req, VerdictOn(req, l, now, ws), ws);
    FreedIsDistinct(KeptNow(req, ws, l, now), AllIds(KeptNow(req, ws, l, now)));
  }

  /** Freeing workers takes no capable candidate away. */
  lemma FreeingAddsCapable(req: Requirements, ws: seq<Worker>, l: Ledger, ids: set<string>)
    ensures T.MoreCapable(CandidatesOf(req, l, ws), CandidatesOf(req, l, Freed(ws, ids)))
  {
    var cs, ds := CandidatesOf(req, l, ws), CandidatesOf(req, l, Freed(ws, ids));
    forall k | 0 <= k < |cs| && cs[k].capable
      ensures cs[k] in ds
    {
      assert Meets(req, ws[k]) && !Busy(ws[k]);
      assert ds[k] == cs[k];
    }
  }

  /** A worker that was idle all along and is cleared among more was cleared before. */
  lemma ClearedBefore(req: Requirements, ws: seq<Worker>, l: Ledger, now: int, ids: set<string>, k: nat)
    requires DistinctIds(ws) && k < |ws| && Freed(ws, ids)[k] == ws[k]
    requires Cleared(req, l, now, Freed(ws, ids), ws[k])
    ensures Cleared(req, l, now, ws, ws[k])
  {
    var us := Freed(ws, ids);
    var cs, ds := CandidatesOf(req, l, ws), CandidatesOf(req, l, us);
    FreedIsDistinct(ws, ids);
    CandidatesAreDistinct(req, l, ws);
    CandidatesAreDistinct(req, l, us);
    FreeingAddsCapable(req, ws, l, ids);
    assert cs[k] == ds[k] == CandidateOf(req, l, ws[k]);
    T.ListedExactly(l.latest, now, ds, ds[k]);
    T.ListedExactly(l.latest, now, cs, cs[k]);
    if T.Objection(l.latest, now, cs, cs[k]).Some? {
      T.AvoidanceIsMonotone(l.latest, now, cs, ds, cs[k]);
    }
  }

  lemma ClearedWasKept(req: Requirements, ws: seq<Worker>, l: Ledger, now: int, ids: set<string>, k: nat)
    requires DistinctIds(ws) && k < |ws| && Cleared(req, l, now, Freed(ws, ids), Freed(ws, ids)[k])
    ensures ws[k] in KeptNow(req, ws, l, now)
  {
    if Freed(ws, ids)[k] == ws[k] {
      ClearedBefore(req, ws, l, now, ids, k);
    }
    KeptExactly(req, VerdictOn(req, l, now, ws), ws, ws[k]);
  }

  lemma KeptIsProbed(req: Requirements, ws: seq<Worker>, l: Ledger, now: int, w: Worker)
    requires w in KeptNow(req, ws, l, now)
    ensures (if Busy(w) then w.(state := Idle) else w) in Probed(req, ws, l, now)
  {
    var kept := KeptNow(req, ws, l, now);
    var i :| 0 <= i < |kept| && kept[i] == w;
    assert kept[i].id in AllIds(kept);
    assert Probed(req, ws, l, now)[i] == if Busy(w) then w.(state := Idle) else w;
  }

  /** A worker that meets the task is idle, by itself or because it was freed. */
  lemma IdleAsFreed(req: Requirements, ws: seq<Worker>, ids: set<string>, k: nat)
    requires k < |ws| && Meets(req, Freed(ws, ids)[k])
    ensures Freed(ws, ids)[k] == if Busy(ws[k]) then ws[k].(state := Idle) else ws[k]
  {
    assert !Busy(Freed(ws, ids)[k]);
  }

  /** Whoever the next decision clears, the probe was shown. */
  lemma ClearedWasProbed(req: Requirements, ws: seq<Worker>, l: Ledger, now: int, ids: set<string>, k: nat)
    requires DistinctIds(ws) && k < |ws| && Cleared(req, l, now, Freed(ws, ids), Freed(ws, ids)[k])
    ensures Freed(ws, ids)[k] in Probed(req, ws, l, now)
  {
    ClearedWasKept(req, ws, l, now, ids, k);
    KeptIsProbed(req, ws, l, now, ws[k]);
    IdleAsFreed(req, ws, ids, k);
  }

  lemma ProbeCoversRouting(req: Requirements, ws: seq<Worker>, l: Ledger, now: int, ids: set<string>)
    requires DistinctIds(ws)
    ensures Covers(req, KeptNow(req, Freed(ws, ids), l, now), Probed(req, ws, l, now))
  {
    var us := Freed(ws, ids);
    forall w | w in KeptNow(req, us, l, now) && Meets(req, w)
      ensures w in Probed(req, ws, l, now)
    {
      KeptExactly(req, VerdictOn(req, l, now, us), us, w);
      var k :| 0 <= k < |us| && us[k] == w;
      ClearedWasProbed(req, ws, l, now, ids, k);
    }
  }

  /** For a blocked task the probe selects nobody. */
  lemma BlockedProbeIsEmpty(cfg: Config, req: Requirements, topology: Topology, ws: seq<Worker>, l: Ledger, now: int)
    requires BlockedNow(cfg, req, topology, ws, l, now)
    ensures Decide(cfg, req, topology, Probed(req, ws, l, now), EvidenceNow(req, ws, l, now)).selected == []
  {
    var kept := KeptNow(req, ws, l, now);
    RoutedParts(cfg, req, topology, ws, l, now);
    if forall k :: 0 <= k < |kept| ==> !Busy(kept[k]) {
      assert Probed(req, ws, l, now) == kept;
    }
  }

  /** And conversely, a probe that selects nobody does not defer the task. */
  lemma EmptyProbeBlocks(cfg: Config, req: Requirements, topology: Topology, ws: seq<Worker>, l: Ledger, now: int)
    ensures RouteDecision(cfg, req, topology, ws, l, now).selected == []
            && Decide(cfg, req, topology, Probed(req, ws, l, now), EvidenceNow(req, ws, l, now)).selected == []
            ==> BlockedNow(cfg, req, topology, ws, l, now)
  {
  }

  /** For all topologies but primary and reviewer, whether anybody is selected does not depend on the
      evidence, and more eligible workers never empty the selection. */
  lemma GrowthWithoutEvidence(
      cfg: Config, req: Requirements, topology: Topology, ws: seq<Worker>, vs: seq<Worker>, ev: Evidence,
      later: Evidence)
    requires DistinctIds(ws) && DistinctIds(vs) && Covers(req, ws, vs) && !topology.PrimaryReviewer?
    requires Decide(cfg, req, topology, ws, later).selected != []
    ensures Decide(cfg, req, topology, vs, ev).selected != []
  {
    if topology.ParallelPanel? {
      PanelIsFilled(cfg, req, ws, later);
      PanelIsFilled(cfg, req, vs, ev);
      MoreEligible(req, ws, vs);
    } else {
      var w := OneWorkerIsTheBest(cfg, req, topology, ws, later);
      var v := OneWorkerIsTheBest(cfg, req, topology, vs, ev);
      assert w.value in vs && Meets(req, w.value);
    }
  }

  /** Single, fallback, cheap-first and panel: a blocked task stays undispatchable whichever of its
      busy workers become idle, with the guard consulted again. */
  lemma BlockingIsSound(
      cfg: Config, req: Requirements, topology: Topology, ws: seq<Worker>, l: Ledger, now: int, ids: set<string>)
    requires DistinctIds(ws) && !topology.PrimaryReviewer? && BlockedNow(cfg, req, topology, ws, l, now)
    ensures RouteDecision(cfg, req, topology, Freed(ws, ids), l, now).selected == []
  {
    var us := Freed(ws, ids);
    BlockedProbeIsEmpty(cfg, req, topology, ws, l, now);
    RoutedParts(cfg, req, topology, us, l, now);
    if RouteDecision(cfg, req, topology, us, l, now).selected != [] {
      FreedIsDistinct(ws, ids);
      KeptIsDistinct(req, VerdictOn(req, l, now, us), us);
      ProbedIsDistinct(req, ws, l, now);
      ProbeCoversRouting(req, ws, l, now, ids);
      GrowthWithoutEvidence(cfg, req, topology, KeptNow(req, us, l, now), Probed(req, ws, l, now),
                            EvidenceNow(req, ws, l, now), EvidenceNow(req, us, l, now));
    }
  }

  // Primary and reviewer

  /** Two cleared workers of which the one behind can review for the one ahead. */
  predicate Pair(cfg: Config, req: Requirements, us: seq<Worker>, l: Ledger, now: int, t: Worker, r: Worker) {
    && t in us && Cleared(req, l, now, us, t) && r in us && Cleared(req, l, now, us, r)
    && t.id != r.id && "review" in r.capabilities && Ahead(cfg, req, EvidenceNow(req, us, l, now), t, r)
  }

  lemma PairMeets(cfg: Config, req: Requirements, us: seq<Worker>, l: Ledger, now: int, t: Worker, r: Worker)
    ensures Pair(cfg, req, us, l, now, t, r) ==> t in us && Meets(req, t) && r in us && Meets(req, r) && t.id != r.id
  {
  }

  lemma ClearedIsKept(req: Requirements, us: seq<Worker>, l: Ledger, now: int, w: Worker)
    ensures w in us && Cleared(req, l, now, us, w) <==> w in KeptNow(req, us, l, now) && Meets(req, w)
  {
    KeptExactly(req, VerdictOn(req, l, now, us), us, w);
  }

  lemma PairIsSelected(cfg: Config, req: Requirements, us: seq<Worker>, l: Ledger, now: int, t: Worker, r: Worker)
    requires DistinctIds(us) && Pair(cfg, req, us, l, now, t, r)
    ensures RouteDecision(cfg, req, PrimaryReviewer, us, l, now).selected != []
  {
    var kept, ev := KeptNow(req, us, l, now), EvidenceNow(req, us, l, now);
    KeptIsDistinct(req, VerdictOn(req, l, now, us), us);
    RoutedParts(cfg, req, PrimaryReviewer, us, l, now);
    ClearedIsKept(req, us, l, now, t);
    ClearedIsKept(req, us, l, now, r);
    RankingExactly(cfg, req, kept, ev, r);
    FirstIsTop(cfg, req, kept, ev);
    var top := Ranking(cfg, req, kept, ev)[0];
    if top.id == r.id {
      SameIdSameWorker(kept, top, r);
      assert Ahead(cfg, req, ev, r, t);
      ScoreLeOrder(Score(cfg, req, ev, t), t.id, Score(cfg, req, ev, r), r.id, 0.0, "");
    }
    assert CanReview(req, kept, top, r);
    var reviewer := PrimaryAndReviewer(cfg, req, kept, ev, top);
  }

  lemma SelectedIsPair(
      cfg: Config, req: Requirements, us: seq<Worker>, l: Ledger, now: int) returns (t: Worker, r: Worker)
    requires DistinctIds(us) && RouteDecision(cfg, req, PrimaryReviewer, us, l, now).selected != []
    ensures Pair(cfg, req, us, l, now, t, r)
  {
    var kept, ev := KeptNow(req, us, l, now), EvidenceNow(req, us, l, now);
    KeptIsDistinct(req, VerdictOn(req, l, now, us), us);
    RoutedParts(cfg, req, PrimaryReviewer, us, l, now);
    assert Ranking(cfg, req, kept, ev) != [];
    FirstIsTop(cfg, req, kept, ev);
    t := Ranking(cfg, req, kept, ev)[0];
    var reviewer := PrimaryAndReviewer(cfg, req, kept, ev, t);
    r := reviewer.value;
    ClearedIsKept(req, us, l, now, t);
    ClearedIsKept(req, us, l, now, r);
  }

  /** Routing finds a primary and a reviewer if and only if there is such a pair. */
  lemma ReviewIsRoutedExactly(cfg: Config, req: Requirements, us: seq<Worker>, l: Ledger, now: int)
    requires DistinctIds(us)
    ensures RouteDecision(cfg, req, PrimaryReviewer, us, l, now).selected != [] <==>
            exists t, r :: Pair(cfg, req, us, l, now, t, r)
  {
    if RouteDecision(cfg, req, PrimaryReviewer, us, l, now).selected != [] {
      var t, r := SelectedIsPair(cfg, req, us, l, now);
    }
    if t, r :| Pair(cfg, req, us, l, now, t, r) {
      PairIsSelected(cfg, req, us, l, now, t, r);
    }
  }

  /** The top worker of the probe is its only reviewer, and some other cleared worker gets ahead of it
      once the guard has looked at the freed workers. */
  predicate Overtaken(
      cfg: Config, req: Requirements, ws: seq<Worker>, l: Ledger, now: int, ids: set<string>, top: Worker, w: Worker)
  {
    var us := Freed(ws, ids);
    && "review" in top.capabilities && top in us && Cleared(req, l, now, us, top)
    && w in us && Cleared(req, l, now, us, w) && w.id != top.id
    && Ahead(cfg, req, EvidenceNow(req, us, l, now), w, top)
  }

  /** In a probe that selects nobody only the top worker can be a reviewer. */
  lemma OnlyTopReviews(cfg: Config, req: Requirements, ps: seq<Worker>, ev: Evidence, top: Worker, r: Worker)
    requires DistinctIds(ps) && Decide(cfg, req, PrimaryReviewer, ps, ev).selected == []
    requires Top(cfg, req, ps, ev, top) && r in ps && Meets(req, r) && "review" in r.capabilities
    ensures r == top
  {
    var reviewer := PrimaryAndReviewer(cfg, req, ps, ev, top);
    assert !CanReview(req, ps, top, r);
    SameIdSameWorker(ps, r, top);
  }

  lemma PairWasProbed(
      cfg: Config, req: Requirements, ws: seq<Worker>, l: Ledger, now: int, ids: set<string>, t: Worker, r: Worker)
    requires DistinctIds(ws)
    ensures Pair(cfg, req, Freed(ws, ids), l, now, t, r) ==> r in Probed(req, ws, l, now)
  {
    if Pair(cfg, req, Freed(ws, ids), l, now, t, r) {
      var k :| 0 <= k < |ws| && Freed(ws, ids)[k] == r;
      ClearedWasProbed(req, ws, l, now, ids, k);
    }
  }

  lemma UnblockedMeansOvertaken(
      cfg: Config, req: Requirements, ws: seq<Worker>, l: Ledger, now: int, ids: set<string>, top: Worker)
      returns (w: Worker)
    requires DistinctIds(ws) && BlockedNow(cfg, req, PrimaryReviewer, ws, l, now)
    requires Top(cfg, req, Probed(req, ws, l, now), EvidenceNow(req, ws, l, now), top)
    requires RouteDecision(cfg, req, PrimaryReviewer, Freed(ws, ids), l, now).selected != []
    ensures Overtaken(cfg, req, ws, l, now, ids, top, w)
  {
    FreedIsDistinct(ws, ids);
    var t, r := SelectedIsPair(cfg, req, Freed(ws, ids), l, now);
    PairWasProbed(cfg, req, ws, l, now, ids, t, r);
    BlockedProbeIsEmpty(cfg, req, PrimaryReviewer, ws, l, now);
    ProbedIsDistinct(req, ws, l, now);
    OnlyTopReviews(cfg, req, Probed(req, ws, l, now), EvidenceNow(req, ws, l, now), top, r);
    w := t;
  }

  /** A blocked task for a primary and a reviewer becomes dispatchable when workers are freed if and only
      if the probe's top worker is its only reviewer and the fresh evidence puts another cleared worker
      ahead of it. */
  lemma BlockedReviewExactly(
      cfg: Config, req: Requirements, ws: seq<Worker>, l: Ledger, now: int, ids: set<string>, top: Worker)
    requires DistinctIds(ws) && BlockedNow(cfg, req, PrimaryReviewer, ws, l, now)
    requires Top(cfg, req, Probed(req, ws, l, now), EvidenceNow(req, ws, l, now), top)
    ensures RouteDecision(cfg, req, PrimaryReviewer, Freed(ws, ids), l, now).selected != [] <==>
            exists w :: Overtaken(cfg, req, ws, l, now, ids, top, w)
  {
    if RouteDecision(cfg, req, PrimaryReviewer, Freed(ws, ids), l, now).selected != [] {
      var w := UnblockedMeansOvertaken(cfg, req, ws, l, now, ids, top);
    }
    if w :| Overtaken(cfg, req, ws, l, now, ids, top, w) {
      FreedIsDistinct(ws, ids);
      assert Pair(cfg, req, Freed(ws, ids), l, now, w, top);
      PairIsSelected(cfg, req, Freed(ws, ids), l, now, w, top);
    }
  }

  /** Anybody selected once workers are freed was shown to the probe. */
  lemma SelectedWasProbed(
      cfg: Config, req: Requirements, topology: Topology, ws: seq<Worker>, l: Ledger, now: int, ids: set<string>,
      id: string)
      returns (w: Worker)
    requires DistinctIds(ws) && id in RouteDecision(cfg, req, topology, Freed(ws, ids), l, now).selected
    ensures w in Probed(req, ws, l, now) && Meets(req, w) && !KnownExhausted(req, l, now, w)
  {
    FreedIsDistinct(ws, ids);
    w := SelectedIsCleared(cfg, req, topology, Freed(ws, ids), l, now, id);
    var k :| 0 <= k < |ws| && Freed(ws, ids)[k] == w;
    ClearedWasProbed(req, ws, l, now, ids, k);
  }

  /** If the probe finds nobody eligible at all, a blocked task stays undispatchable in every topology. */
  lemma NobodyProbedStaysBlocked(
      cfg: Config, req: Requirements, topology: Topology, ws: seq<Worker>, l: Ledger, now: int, ids: set<string>)
    requires DistinctIds(ws) && forall w :: w in Probed(req, ws, l, now) ==> !Meets(req, w)
    ensures RouteDecision(cfg, req, topology, Freed(ws, ids), l, now).selected == []
  {
    var selected := RouteDecision(cfg, req, topology, Freed(ws, ids), l, now).selected;
    if selected != [] {
      var w := SelectedWasProbed(cfg, req, topology, ws, l, now, ids, selected[0]);
      assert false;
    }
  }

  // What a deferred task may hope for

  lemma ProbedWasKept(req: Requirements, ws: seq<Worker>, l: Ledger, now: int, w: Worker) returns (k: nat)
    requires w in Probed(req, ws, l, now)
    ensures k < |ws| && w == if Busy(ws[k]) then ws[k].(state := Idle) else ws[k]
  {
    var kept := KeptNow(req, ws, l, now);
    var i :| 0 <= i < |kept| && Probed(req, ws, l, now)[i] == w;
    KeptExactly(req, VerdictOn(req, l, now, ws), ws, kept[i]);
    assert kept[i].id in AllIds(kept);
    k :| 0 <= k < |ws| && ws[k] == kept[i];
  }

  /** A busy worker is always kept, and shown to the probe as idle. */
  lemma BusyIsProbed(req: Requirements, ws: seq<Worker>, l: Ledger, now: int, b: Worker)
    requires b in ws && Busy(b)
    ensures b in KeptNow(req, ws, l, now) && b.(state := Idle) in Probed(req, ws, l, now)
  {
    KeptExactly(req, VerdictOn(req, l, now, ws), ws, b);
    KeptIsProbed(req, ws, l, now, b);
  }

  /** For one worker, a task is deferred as soon as a busy worker could do it if it were idle. */
  lemma DeferredIfProbed(
      cfg: Config, req: Requirements, topology: Topology, ws: seq<Worker>, l: Ledger, now: int, b: Worker)
    requires DistinctIds(ws) && OneWorker(topology) && b in KeptNow(req, ws, l, now) && Busy(b)
    requires b.(state := Idle) in Probed(req, ws, l, now)
    ensures Meets(req, b.(state := Idle)) ==> Deferred(cfg, req, topology, ws, l, now)
  {
    ProbedIsDistinct(req, ws, l, now);
    var w := OneWorkerIsTheBest(cfg, req, topology, Probed(req, ws, l, now), EvidenceNow(req, ws, l, now));
  }

  /** Some worker eligible in the probe has a pool not known to be exhausted. */
  predicate Hopeful(req: Requirements, ws: seq<Worker>, l: Ledger, now: int, w: Worker) {
    w in Probed(req, ws, l, now) && Meets(req, w) && !KnownExhausted(req, l, now, w)
  }

  lemma HopefulIsFreed(req: Requirements, ws: seq<Worker>, l: Ledger, now: int, w: Worker)
    requires Hopeful(req, ws, l, now, w)
    ensures w in Freed(ws, AllIds(ws))
  {
    var k := ProbedWasKept(req, ws, l, now, w);
    assert ws[k].id in AllIds(ws);
    assert Freed(ws, AllIds(ws))[k] == w;
  }

  /** Single, fallback and cheap-first: a task that nobody was selected for can be dispatched once all of
      its busy workers are idle if and only if some worker eligible in the probe has a pool that is not
      known to be exhausted. */
  lemma WaitingPaysOffExactly(cfg: Config, req: Requirements, topology: Topology, ws: seq<Worker>, l: Ledger, now: int)
    requires DistinctIds(ws) && OneWorker(topology)
    ensures RouteDecision(cfg, req, topology, Freed(ws, AllIds(ws)), l, now).selected != [] <==>
            exists w :: Hopeful(req, ws, l, now, w)
  {
    var us := Freed(ws, AllIds(ws));
    var selected := RouteDecision(cfg, req, topology, us, l, now).selected;
    if selected != [] {
      var w := SelectedWasProbed(cfg, req, topology, ws, l, now, AllIds(ws), selected[0]);
      assert Hopeful(req, ws, l, now, w);
    }
    if w :| Hopeful(req, ws, l, now, w) {
      FreedIsDistinct(ws, AllIds(ws));
      HopefulIsFreed(req, ws, l, now, w);
      FoundExactlyIfAvailable(cfg, req, topology, us, l, now);
    }
  }

  // Panels

  /** The workers that the guard clears. */
  function ClearedOf(req: Requirements, us: seq<Worker>, l: Ledger, now: int): seq<Worker> {
    Filter(us, (w: Worker) => Cleared(req, l, now, us, w))
  }

  lemma CountedInRanking(req: Requirements, kept: seq<Worker>, w: Worker)
    ensures multiset(Eligible(req, kept))[w] == if Meets(req, w) then multiset(kept)[w] else 0
  {
    IdLeIsOrder();
    SortSorts(kept, IdLe());
    FilterCounts(Sort(kept, IdLe()), (v: Worker) => Meets(req, v));
  }

  lemma CountedIfCleared(req: Requirements, us: seq<Worker>, l: Ledger, now: int, w: Worker)
    ensures multiset(ClearedOf(req, us, l, now))[w] ==
        if Meets(req, w) then multiset(KeptNow(req, us, l, now))[w] else 0
  {
    FilterCounts(us, (v: Worker) => Passes(req, VerdictOn(req, l, now, us), v));
    FilterCounts(us, (v: Worker) => Cleared(req, l, now, us, v));
  }

  lemma EligibleAreCleared(req: Requirements, us: seq<Worker>, l: Ledger, now: int)
    ensures |Eligible(req, KeptNow(req, us, l, now))| == |ClearedOf(req, us, l, now)|
  {
    var eligible, cleared := Eligible(req, KeptNow(req, us, l, now)), ClearedOf(req, us, l, now);
    forall w
      ensures multiset(eligible)[w] == multiset(cleared)[w]
    {
      CountedInRanking(req, KeptNow(req, us, l, now), w);
      CountedIfCleared(req, us, l, now, w);
    }
    SameLength(eligible, cleared);
  }

  /** A panel is routed if and only if the guard clears enough workers for it. */
  lemma PanelIsRoutedExactly(cfg: Config, req: Requirements, us: seq<Worker>, l: Ledger, now: int)
    ensures RouteDecision(cfg, req, ParallelPanel, us, l, now).selected != [] <==>
            Fills(|ClearedOf(req, us, l, now)|, req.panelSize)
  {
    RoutedParts(cfg, req, ParallelPanel, us, l, now);
    PanelIsFilled(cfg, req, KeptNow(req, us, l, now), EvidenceNow(req, us, l, now));
    EligibleAreCleared(req, us, l, now);
  }
}
