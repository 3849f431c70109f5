/**
 What routing promises as a whole: who is scored, who is rejected, who can be selected, and that the
 order of the candidates does not matter.
 */
module RoutingTheorems {
  import opened Ordering
  import opened Scheduler
  import opened SchedulerTheorems
  import opened Routing
  import G = QuotaGuard
  import T = QuotaGuardTheorems

  /** The worker of a given id, if any, that a predicate holds of. */
  lemma OnlyWorker(ws: seq<Worker>, w: Worker, u: Worker)
    requires DistinctIds(ws) && w in ws && u in ws && u.id == w.id
    ensures u == w
  {
    SameIdSameWorker(ws, u, w);
  }

  lemma RoutedParts(cfg: Config, req: Requirements, topology: Topology, ws: seq<Worker>, l: Ledger, now: int)
    ensures var v := VerdictOn(req, l, now, ws);
            var d := Decide(cfg, req, topology, Kept(req, v, ws), HealthMap(v, ws));
            var r := RouteDecision(cfg, req, topology, ws, l, now);
            r.selected == d.selected && r.candidates == d.candidates
                && r.rejected == d.rejected + QuotaRejections(req, v, ws)
  {
  }

  /** The workers scored are exactly those that meet the task and that the guard allows. */
  lemma ScoredExactlyIfCleared(
      cfg: Config, req: Requirements, topology: Topology, ws: seq<Worker>, l: Ledger, now: int, w: Worker)
    requires DistinctIds(ws) && w in ws
    ensures IsScored(RouteDecision(cfg, req, topology, ws, l, now), w.id) <==> Cleared(req, l, now, ws, w)
  {
    var v := VerdictOn(req, l, now, ws);
    var kept := Kept(req, v, ws);
    RoutedParts(cfg, req, topology, ws, l, now);
    ScoredExactly(cfg, req, topology, kept, HealthMap(v, ws), w.id);
    KeptExactly(req, v, ws, w);
    if u :| u in kept && u.id == w.id && Meets(req, u) {
      KeptExactly(req, v, ws, u);
      OnlyWorker(ws, w, u);
    }
  }

  /** A capable worker that is not listed has been avoided. */
  lemma UnlistedIsAvoided(req: Requirements, l: Ledger, now: int, ws: seq<Worker>, w: Worker)
    requires DistinctIds(ws) && w in ws && Meets(req, w) && w.id !in VerdictOn(req, l, now, ws).ordered
    ensures Withheld(req, VerdictOn(req, l, now, ws), w)
  {
    var cs := CandidatesOf(req, l, ws);
    CandidatesAreDistinct(req, l, ws);
    var k :| 0 <= k < |ws| && ws[k] == w;
    assert cs[k] == CandidateOf(req, l, w);
    T.ListedExactly(l.latest, now, cs, cs[k]);
    T.AvoidedForCause(l.latest, now, cs, cs[k]);
  }

  lemma DecidedRejections(
      cfg: Config, req: Requirements, topology: Topology, ws: seq<Worker>, ev: Evidence)
      returns (shortage: seq<Rejection>)
    ensures Decide(cfg, req, topology, ws, ev).rejected == Rejections(req, Sort(ws, IdLe())) + shortage
    ensures forall k :: 0 <= k < |shortage| ==> !OfWorker(shortage[k])
  {
    var m := Marks(cfg, req, ws, ev);
    shortage := Shortage(topology, req, Select(topology, req, Ranking(cfg, req, ws, ev), m));
  }

  lemma RejectedAmongOwn(own: seq<Rejection>, shortage: seq<Rejection>, d: Decision, id: string)
    requires d.rejected == own + shortage
    requires (forall k :: 0 <= k < |own| ==> OfWorker(own[k]))
        && (forall k :: 0 <= k < |shortage| ==> !OfWorker(shortage[k]))
    ensures IsRejected(d, id) <==> Names(own, id)
  {
    if k :| 0 <= k < |own| && own[k].workerId == id {
      assert d.rejected[k] == own[k];
    }
    if k :| 0 <= k < |d.rejected| && d.rejected[k].workerId == id && OfWorker(d.rejected[k]) {
      assert own[k].workerId == id;
    }
  }

  /** The scheduler's own rejections of workers. */
  lemma SchedulerRejects(cfg: Config, req: Requirements, topology: Topology, ws: seq<Worker>, ev: Evidence, id: string)
    ensures IsRejected(Decide(cfg, req, topology, ws, ev), id) <==> exists w :: w in ws && w.id == id && !Meets(req, w)
  {
    var sorted := Sort(ws, IdLe());
    IdLeIsOrder();
    SortSorts(ws, IdLe());
    RejectionsExactly(req, sorted, id);
    RejectionsAreOfWorkers(req, sorted);
    var shortage := DecidedRejections(cfg, req, topology, ws, ev);
    RejectedAmongOwn(Rejections(req, sorted), shortage, Decide(cfg, req, topology, ws, ev), id);
    if i :| 0 <= i < |sorted| && sorted[i].id == id && !Meets(req, sorted[i]) {
      SameElements(sorted, ws, sorted[i]);
    }
    if w :| w in ws && w.id == id && !Meets(req, w) {
      SameElements(sorted, ws, w);
    }
  }

  lemma JoinedRejections(d: Decision, more: seq<Rejection>, id: string)
    requires forall k :: 0 <= k < |more| ==> OfWorker(more[k])
    ensures IsRejected(d.(rejected := d.rejected + more), id) <==>
            IsRejected(d, id) || Names(more, id)
  {
    var joined := d.rejected + more;
    if k :| 0 <= k < |more| && more[k].workerId == id {
      assert joined[|d.rejected| + k] == more[k];
    }
    if k :| 0 <= k < |d.rejected| && d.rejected[k].workerId == id && OfWorker(d.rejected[k]) {
      assert joined[k] == d.rejected[k];
    }
  }

  /** The scheduler rejects the candidates that do not meet the task. */
  lemma RejectedByScheduler(
      cfg: Config, req: Requirements, topology: Topology, ws: seq<Worker>, l: Ledger, now: int, w: Worker)
    requires DistinctIds(ws) && w in ws
    ensures var v := VerdictOn(req, l, now, ws);
            IsRejected(Decide(cfg, req, topology, Kept(req, v, ws), HealthMap(v, ws)), w.id) <==> !Meets(req, w)
  {
    var v := VerdictOn(req, l, now, ws);
    var kept := Kept(req, v, ws);
    SchedulerRejects(cfg, req, topology, kept, HealthMap(v, ws), w.id);
    KeptExactly(req, v, ws, w);
    if u :| u in kept && u.id == w.id && !Meets(req, u) {
      KeptExactly(req, v, ws, u);
      OnlyWorker(ws, w, u);
    }
  }

  /** The guard rejects those that meet the task and are not cleared. */
  lemma RejectedByGuard(req: Requirements, ws: seq<Worker>, l: Ledger, now: int, w: Worker)
    requires DistinctIds(ws) && w in ws
    ensures Names(QuotaRejections(req, VerdictOn(req, l, now, ws), ws), w.id) <==>
        Meets(req, w) && !Cleared(req, l, now, ws, w)
  {
    var v := VerdictOn(req, l, now, ws);
    QuotaRejectionsExactly(req, v, ws, w.id);
    if Meets(req, w) && w.id !in v.ordered {
      UnlistedIsAvoided(req, l, now, ws, w);
    }
    if u :| u in ws && u.id == w.id && Withheld(req, v, u) {
      OnlyWorker(ws, w, u);
    }
  }

  /** Every candidate that is not cleared is rejected, by the scheduler or by the guard. */
  lemma RejectedExactlyIfNotCleared(
      cfg: Config, req: Requirements, topology: Topology, ws: seq<Worker>, l: Ledger, now: int, w: Worker)
    requires DistinctIds(ws) && w in ws
    ensures IsRejected(RouteDecision(cfg, req, topology, ws, l, now), w.id) <==> !Cleared(req, l, now, ws, w)
  {
    var v := VerdictOn(req, l, now, ws);
    var d := Decide(cfg, req, topology, Kept(req, v, ws), HealthMap(v, ws));
    JoinedRejections(d, QuotaRejections(req, v, ws), w.id);
    RejectedByScheduler(cfg, req, topology, ws, l, now, w);
    RejectedByGuard(req, ws, l, now, w);
  }

  /** Each candidate is either scored or rejected, and never both. */
  lemma ScoredOrRejected(
      cfg: Config, req: Requirements, topology: Topology, ws: seq<Worker>, l: Ledger, now: int, w: Worker)
    requires DistinctIds(ws) && w in ws
    ensures IsScored(RouteDecision(cfg, req, topology, ws, l, now), w.id) <==>
        !IsRejected(RouteDecision(cfg, req, topology, ws, l, now), w.id)
  {
    ScoredExactlyIfCleared(cfg, req, topology, ws, l, now, w);
    RejectedExactlyIfNotCleared(cfg, req, topology, ws, l, now, w);
  }

  // Selection

  lemma SelectedFromRanking(
      topology: Topology, req: Requirements, ranked: seq<Worker>, m: map<string, real>, id: string)
      returns (w: Worker)
    requires id in Select(topology, req, ranked, m)
    ensures w in ranked && w.id == id
  {
    match topology {
      case Single => w := ranked[0];
      case ParallelPanel =>
        var k :| 0 <= k < |Prefix(ranked, req.panelSize)| && Prefix(ranked, req.panelSize)[k].id == id;
        w := ranked[k];
      case PrimaryReviewer =>
        var k := FirstReviewerIsFirst(ranked, ranked[0].id);
        w := if ranked[0].id == id then ranked[0] else ranked[k];
      case Fallback =>
        FallbackLeIsOrder(req.preferred, m);
        FirstIsLeast(ranked, FallbackLe(req.preferred, m));
        w := Sort(ranked, FallbackLe(req.preferred, m))[0];
      case CheapFirst =>
        CheapLeIsOrder(m);
        FirstIsLeast(ranked, CheapLe(m));
        w := Sort(ranked, CheapLe(m))[0];
    }
  }

  /** Whatever the topology, a selected worker meets the task. */
  lemma SelectedMeets(
      cfg: Config, req: Requirements, topology: Topology, ws: seq<Worker>, ev: Evidence, id: string)
      returns (w: Worker)
    requires id in Decide(cfg, req, topology, ws, ev).selected
    ensures w in ws && w.id == id && Meets(req, w)
  {
    w := SelectedFromRanking(topology, req, Ranking(cfg, req, ws, ev), Marks(cfg, req, ws, ev), id);
    RankingExactly(cfg, req, ws, ev, w);
  }

  /** No selected worker has a quota pool known to be exhausted, and each was scored. */
  lemma SelectedIsCleared(
      cfg: Config, req: Requirements, topology: Topology, ws: seq<Worker>, l: Ledger, now: int, id: string)
      returns (w: Worker)
    requires DistinctIds(ws) && id in RouteDecision(cfg, req, topology, ws, l, now).selected
    ensures w in ws && w.id == id && Cleared(req, l, now, ws, w) && !KnownExhausted(req, l, now, w)
    ensures IsScored(RouteDecision(cfg, req, topology, ws, l, now), id)
  {
    var v := VerdictOn(req, l, now, ws);
    RoutedParts(cfg, req, topology, ws, l, now);
    w := SelectedMeets(cfg, req, topology, Kept(req, v, ws), HealthMap(v, ws), id);
    KeptExactly(req, v, ws, w);
    ClearedIsNotExhausted(req, l, now, ws, w);
    ScoredExactlyIfCleared(cfg, req, topology, ws, l, now, w);
  }

  /** Single, fallback and cheap-first find a worker exactly if some candidate meets all hard
      constraints with a quota pool not known to be exhausted. */
  lemma FoundExactlyIfAvailable(
      cfg: Config, req: Requirements, topology: Topology, ws: seq<Worker>, l: Ledger, now: int)
    requires DistinctIds(ws) && OneWorker(topology)
    ensures RouteDecision(cfg, req, topology, ws, l, now).selected != [] <==>
            exists w :: w in ws && Meets(req, w) && !KnownExhausted(req, l, now, w)
  {
    var v := VerdictOn(req, l, now, ws);
    var kept := Kept(req, v, ws);
    KeptIsDistinct(req, v, ws);
    RoutedParts(cfg, req, topology, ws, l, now);
    var best := OneWorkerIsTheBest(cfg, req, topology, kept, HealthMap(v, ws));
    if best.Some? {
      KeptExactly(req, v, ws, best.value);
      ClearedIsNotExhausted(req, l, now, ws, best.value);
    }
    if w :| w in ws && Meets(req, w) && !KnownExhausted(req, l, now, w) {
      var u := SomebodyIsCleared(req, l, now, ws, w);
      KeptExactly(req, v, ws, u);
    }
  }

  // Order

  lemma SameHealth(v: G.Verdict, ws: seq<Worker>, vs: seq<Worker>)
    requires multiset(ws) == multiset(vs)
    ensures HealthMap(v, ws) == HealthMap(v, vs)
  {
    forall k | 0 <= k < |ws|
      ensures ws[k] in vs
    {
      SameElements(ws, vs, ws[k]);
    }
    forall k | 0 <= k < |vs|
      ensures vs[k] in ws
    {
      SameElements(ws, vs, vs[k]);
    }
  }

  /** The whole routing decision is the same for every order of candidates with distinct ids. */
  lemma RoutingOrderIsIrrelevant(
      cfg: Config, req: Requirements, topology: Topology, ws: seq<Worker>, vs: seq<Worker>, l: Ledger, now: int)
    requires DistinctIds(ws) && DistinctIds(vs) && multiset(ws) == multiset(vs)
    ensures RouteDecision(cfg, req, topology, ws, l, now) == RouteDecision(cfg, req, topology, vs, l, now)
  {
    MapIgnoresOrder(ws, vs, (w: Worker) => CandidateOf(req, l, w));
    CandidatesAreDistinct(req, l, ws);
    CandidatesAreDistinct(req, l, vs);
    T.GuardOrderIsIrrelevant(l.latest, now, CandidatesOf(req, l, ws), CandidatesOf(req, l, vs));
    var v := VerdictOn(req, l, now, ws);
    SameHealth(v, ws, vs);
    FilterIgnoresOrder(ws, vs, (w: Worker) => Passes(req, v, w));
    KeptIsDistinct(req, v, ws);
    ListingOrderIsIrrelevant(cfg, req, topology, Kept(req, v, ws), Kept(req, v, vs), HealthMap(v, ws));
    SortedListing(ws, vs);
  }

  lemma SortedListing(ws: seq<Worker>, vs: seq<Worker>)
    requires DistinctIds(ws) && multiset(ws) == multiset(vs)
    ensures Sort(ws, IdLe()) == Sort(vs, IdLe())
  {
    IdLeIsOrder();
    forall a, b | a in ws && b in ws && IdLe()(a, b) && IdLe()(b, a)
      ensures a == b
    {
      StringLeTotal(a.id, b.id);
      SameIdSameWorker(ws, a, b);
    }
    SortIgnoresOrder(ws, vs, IdLe());
  }
}
