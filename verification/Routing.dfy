/**
 Routing one task (src/project_supervisor/runtime.py): the quota guard filters the candidates, the
 scheduler decides among the rest, and the two sets of rejections are joined.
 */
module Routing {
  import opened Options
  import opened Ordering
  import opened Scheduler
  import opened SchedulerTheorems
  import G = QuotaGuard
  import T = QuotaGuardTheorems

  /** What the resource ledger knows: the pool last seen for a worker, the last observation of a pool. */
  datatype Ledger = Ledger(pools: map<string, string>, latest: G.Ledger)

  function PoolOf(l: Ledger, w: Worker): string {
    if w.id in l.pools then l.pools[w.id] else "local:" + w.provider + ":worker:" + w.id
  }

  function CandidateOf(req: Requirements, l: Ledger, w: Worker): G.Candidate {
    G.Candidate(w.id, PoolOf(l, w), HardConstraints(req, w) == [], w.cost < 0.5, Some(w.provider))
  }

  function CandidatesOf(req: Requirements, l: Ledger, ws: seq<Worker>): (r: seq<G.Candidate>)
    ensures |r| == |ws| && forall k :: 0 <= k < |ws| ==> r[k] == CandidateOf(req, l, ws[k])
  {
    Map(ws, (w: Worker) => CandidateOf(req, l, w))
  }

  function VerdictOn(req: Requirements, l: Ledger, now: int, ws: seq<Worker>): G.Verdict {
    G.Verdicts(l.latest, now, CandidatesOf(req, l, ws))
  }

  /** The workers that the scheduler gets to see: those already ruled out, and those the guard allows. */
  predicate Passes(req: Requirements, v: G.Verdict, w: Worker) { !Meets(req, w) || w.id in v.ordered }

  predicate Withheld(req: Requirements, v: G.Verdict, w: Worker) {
    Meets(req, w) && w.id in v.avoided && w.id !in v.ordered
  }

  function Kept(req: Requirements, v: G.Verdict, ws: seq<Worker>): seq<Worker> {
    Filter(ws, (w: Worker) => Passes(req, v, w))
  }

  function QuotaRejections(req: Requirements, v: G.Verdict, ws: seq<Worker>): (r: seq<Rejection>)
    ensures forall k :: 0 <= k < |r| ==> r[k].code == QuotaGuarded
  {
    var withheld := Filter(Sort(ws, IdLe()), (w: Worker) => Withheld(req, v, w));
    seq(|withheld|, k requires 0 <= k < |withheld| => Rejection(withheld[k].id, QuotaGuarded))
  }

  /** The evidence handed to the scheduler: one report for each candidate, in the order of ids. */
  function Reports(v: G.Verdict, ws: seq<Worker>): (r: seq<Report>)
    ensures |r| == |Sort(ws, IdLe())|
    ensures var sorted := Sort(ws, IdLe());
        forall k :: 0 <= k < |r| ==> r[k] == Report(sorted[k].id, G.Health(v.evidence, sorted[k].id))
  {
    var sorted := Sort(ws, IdLe());
    seq(|sorted|, k requires 0 <= k < |sorted| => Report(sorted[k].id, G.Health(v.evidence, sorted[k].id)))
  }

  function HealthMap(v: G.Verdict, ws: seq<Worker>): Evidence {
    map id | id in set k | 0 <= k < |ws| :: ws[k].id :: G.Health(v.evidence, id)
  }

  /** The joint decision. */
  function RouteDecision(
      cfg: Config, req: Requirements, topology: Topology, ws: seq<Worker>, l: Ledger, now: int): Decision {
    var v := VerdictOn(req, l, now, ws);
    var d := Decide(cfg, req, topology, Kept(req, v, ws), HealthMap(v, ws));
    d.(rejected := d.rejected + QuotaRejections(req, v, ws))
  }

  /** _apply_quota_guard. Worker rows have distinct ids. */
  method ApplyQuotaGuard(req: Requirements, ws: seq<Worker>, l: Ledger, now: int)
    returns (kept: seq<Worker>, rejections: seq<Rejection>, reports: seq<Report>)
    requires DistinctIds(ws)
    ensures var v := VerdictOn(req, l, now, ws);
            kept == Kept(req, v, ws) && rejections == QuotaRejections(req, v, ws) && reports == Reports(v, ws)
  {
    var candidates: seq<G.Candidate> := [];
    for k := 0 to |ws|
      invariant candidates == CandidatesOf(req, l, ws)[..k]
    {
      candidates := candidates + [CandidateOf(req, l, ws[k])];
    }
    assert candidates == CandidatesOf(req, l, ws);
    var v := G.Evaluate(l.latest, now, candidates);
    return Kept(req, v, ws), QuotaRejections(req, v, ws), Reports(v, ws);
  }

  /** A report speaks of each worker and of nobody else. */
  lemma ReportsCoverWorkers(v: G.Verdict, ws: seq<Worker>, id: string)
    ensures (exists k :: 0 <= k < |Reports(v, ws)| && Reports(v, ws)[k].workerId == id) <==>
        (exists i :: 0 <= i < |ws| && ws[i].id == id)
  {
    var sorted := Sort(ws, IdLe());
    IdLeIsOrder();
    SortSorts(ws, IdLe());
    if k :| 0 <= k < |Reports(v, ws)| && Reports(v, ws)[k].workerId == id {
      SameElements(sorted, ws, sorted[k]);
    }
    if i :| 0 <= i < |ws| && ws[i].id == id {
      SameElements(sorted, ws, ws[i]);
      var k :| 0 <= k < |sorted| && sorted[k] == ws[i];
      assert Reports(v, ws)[k].workerId == id;
    }
  }

  lemma ReportsAreUnique(v: G.Verdict, ws: seq<Worker>)
    requires DistinctIds(ws)
    ensures UniqueReports(Reports(v, ws))
  {
    IdLeIsOrder();
    SortSorts(ws, IdLe());
    DistinctByCount(ws, Sort(ws, IdLe()));
  }

  lemma ReportedHealth(v: G.Verdict, ws: seq<Worker>, ev: Evidence, id: string)
    requires Reported(Reports(v, ws), ev)
    ensures id in ev <==> id in HealthMap(v, ws)
    ensures id in ev ==> ev[id] == HealthMap(v, ws)[id]
  {
    ReportsCoverWorkers(v, ws, id);
    if id in ev {
      var k :| 0 <= k < |Reports(v, ws)| && Reports(v, ws)[k].workerId == id;
      assert ev[id] == Reports(v, ws)[k].health;
    }
  }

  lemma ReportsDetermineEvidence(v: G.Verdict, ws: seq<Worker>, ev: Evidence)
    requires Reported(Reports(v, ws), ev)
    ensures ev == HealthMap(v, ws)
  {
    forall id
      ensures (id in ev <==> id in HealthMap(v, ws)) && (id in ev ==> ev[id] == HealthMap(v, ws)[id])
    {
      ReportedHealth(v, ws, ev, id);
    }
  }

  /** The guard, then the scheduler. The guard's evidence is always accepted, so only weights that sum
      to zero can make routing raise. */
  method Route(
      cfg: Config, req: Requirements, topology: Topology, ws: seq<Worker>, l: Ledger, now: int)
      returns (outcome: Outcome)
    requires DistinctIds(ws)
    ensures !outcome.DuplicateEvidence?
    ensures outcome.ZeroWeights? ==> Sum(cfg.weights) == 0.0
    ensures outcome.Decided? ==> outcome.decision == RouteDecision(cfg, req, topology, ws, l, now)
  {
    var kept, rejections, reports := ApplyQuotaGuard(req, ws, l, now);
    ghost var ev;
    outcome, ev := Schedule(cfg, req, topology, kept, reports);
    ReportsAreUnique(VerdictOn(req, l, now, ws), ws);
    if outcome.Decided? {
      ReportsDetermineEvidence(VerdictOn(req, l, now, ws), ws, ev);
      outcome := Decided(outcome.decision.(rejected := outcome.decision.rejected + rejections));
    }
  }

  // What the two do together

  lemma CandidatesAreDistinct(req: Requirements, l: Ledger, ws: seq<Worker>)
    requires DistinctIds(ws)
    ensures G.DistinctCandidates(CandidatesOf(req, l, ws))
  {
  }

  /** A worker's quota pool is known to be exhausted. */
  predicate KnownExhausted(req: Requirements, l: Ledger, now: int, w: Worker) {
    G.FindingOf(l.latest, now, CandidateOf(req, l, w)).state.Exhausted?
  }

  /** The guard lets a worker through to be scored: it meets the task and nothing is held against it. */
  predicate Cleared(req: Requirements, l: Ledger, now: int, ws: seq<Worker>, w: Worker) {
    Meets(req, w) && w.id in VerdictOn(req, l, now, ws).ordered
  }

  lemma ClearedIsNotExhausted(req: Requirements, l: Ledger, now: int, ws: seq<Worker>, w: Worker)
    requires DistinctIds(ws) && w in ws && Cleared(req, l, now, ws, w)
    ensures !KnownExhausted(req, l, now, w)
  {
    CandidatesAreDistinct(req, l, ws);
    var k :| 0 <= k < |ws| && ws[k] == w;
    assert CandidatesOf(req, l, ws)[k] == CandidateOf(req, l, w);
    T.NobodyListedIsExhausted(l.latest, now, CandidatesOf(req, l, ws), CandidateOf(req, l, w));
  }

  /** Somebody is cleared as soon as one worker meets the task with a pool not known to be exhausted. */
  lemma SomebodyIsCleared(req: Requirements, l: Ledger, now: int, ws: seq<Worker>, w: Worker) returns (u: Worker)
    requires DistinctIds(ws) && w in ws && Meets(req, w) && !KnownExhausted(req, l, now, w)
    ensures u in ws && Cleared(req, l, now, ws, u)
  {
    var cs := CandidatesOf(req, l, ws);
    CandidatesAreDistinct(req, l, ws);
    var k :| 0 <= k < |ws| && ws[k] == w;
    assert cs[k] == CandidateOf(req, l, w);
    var c := T.SomebodyIsListed(l.latest, now, cs, cs[k]);
    var i :| 0 <= i < |cs| && cs[i] == c;
    u := ws[i];
    T.NobodyListedIsExhausted(l.latest, now, cs, c);
  }

  lemma KeptExactly(req: Requirements, v: G.Verdict, ws: seq<Worker>, w: Worker)
    ensures w in Kept(req, v, ws) <==> w in ws && Passes(req, v, w)
  {
    FilterKeeps(ws, (u: Worker) => Passes(req, v, u), w);
  }

  lemma KeptIsDistinct(req: Requirements, v: G.Verdict, ws: seq<Worker>)
    requires DistinctIds(ws)
    ensures DistinctIds(Kept(req, v, ws))
  {
    FilterCounts(ws, (u: Worker) => Passes(req, v, u));
    DistinctByCount(ws, Kept(req, v, ws));
  }

  predicate IsScored(d: Decision, id: string) { exists k :: 0 <= k < |d.candidates| && d.candidates[k].workerId == id }
  predicate IsRejected(d: Decision, id: string) {
    exists k :: 0 <= k < |d.rejected| && d.rejected[k].workerId == id && OfWorker(d.rejected[k])
  }

  lemma ScoredLeIsOrder()
    ensures Order(ScoredLe())
  {
    forall a: Scored, b: Scored, c: Scored
      ensures ScoredLe()(a, b) || ScoredLe()(b, a)
      ensures ScoredLe()(a, b) && ScoredLe()(b, c) ==> ScoredLe()(a, c)
    {
      ScoreLeOrder(a.score, a.workerId, b.score, b.workerId, c.score, c.workerId);
    }
  }

  lemma ScoredByPosition(cfg: Config, req: Requirements, topology: Topology, ws: seq<Worker>, ev: Evidence, id: string)
    ensures IsScored(Decide(cfg, req, topology, ws, ev), id) <==>
            exists k :: 0 <= k < |Eligible(req, ws)| && Eligible(req, ws)[k].id == id
  {
    var scores := Scores(cfg, req, ev, Eligible(req, ws));
    var sorted := Sort(scores, ScoredLe());
    ScoredLeIsOrder();
    SortSorts(scores, ScoredLe());
    if k :| 0 <= k < |sorted| && sorted[k].workerId == id {
      SameElements(sorted, scores, sorted[k]);
    }
    if k :| 0 <= k < |scores| && scores[k].workerId == id {
      SameElements(sorted, scores, scores[k]);
    }
  }

  /** The scheduler scores the workers that meet the task, and no others. */
  lemma ScoredExactly(cfg: Config, req: Requirements, topology: Topology, ws: seq<Worker>, ev: Evidence, id: string)
    ensures IsScored(Decide(cfg, req, topology, ws, ev), id) <==> exists w :: w in ws && w.id == id && Meets(req, w)
  {
    var eligible := Eligible(req, ws);
    ScoredByPosition(cfg, req, topology, ws, ev, id);
    if k :| 0 <= k < |eligible| && eligible[k].id == id {
      EligibleExactly(req, ws, eligible[k]);
    }
    if w :| w in ws && w.id == id && Meets(req, w) {
      EligibleExactly(req, ws, w);
      var k :| 0 <= k < |eligible| && eligible[k] == w;
    }
  }

  predicate Names(r: seq<Rejection>, id: string) { exists k :: 0 <= k < |r| && r[k].workerId == id }

  lemma NamesEither(r: seq<Rejection>, s: seq<Rejection>, id: string)
    ensures Names(r + s, id) <==> Names(r, id) || Names(s, id)
  {
    if k :| 0 <= k < |s| && s[k].workerId == id {
      assert (r + s)[|r| + k] == s[k];
    }
    if k :| 0 <= k < |r| && r[k].workerId == id {
      assert (r + s)[k] == r[k];
    }
  }

  predicate Unmet(req: Requirements, ws: seq<Worker>, id: string) {
    exists i :: 0 <= i < |ws| && ws[i].id == id && !Meets(req, ws[i])
  }

  lemma NamesOwn(req: Requirements, w: Worker, id: string)
    ensures Names(HardConstraints(req, w), id) <==> w.id == id && !Meets(req, w)
  {
    var r := HardConstraints(req, w);
    assert r != [] ==> r[0].workerId == w.id;
  }

  lemma UnmetEither(req: Requirements, ws: seq<Worker>, id: string)
    requires ws != []
    ensures var n := |ws| - 1;
            Unmet(req, ws, id) <==> Unmet(req, ws[..n], id) || (ws[n].id == id && !Meets(req, ws[n]))
  {
    var n := |ws| - 1;
    assert forall i :: 0 <= i < n ==> ws[..n][i] == ws[i];
  }

  /** The scheduler rejects the workers that do not meet the task, and no others. */
  lemma {:induction false} RejectionsExactly(req: Requirements, ws: seq<Worker>, id: string)
    ensures Names(Rejections(req, ws), id) <==> Unmet(req, ws, id)
  {
    if ws != [] {
      var n := |ws| - 1;
      RejectionsExactly(req, ws[..n], id);
      NamesEither(Rejections(req, ws[..n]), HardConstraints(req, ws[n]), id);
      NamesOwn(req, ws[n], id);
      UnmetEither(req, ws, id);
    }
  }

  lemma {:induction false} RejectionsAreOfWorkers(req: Requirements, ws: seq<Worker>)
    ensures forall k :: 0 <= k < |Rejections(req, ws)| ==> OfWorker(Rejections(req, ws)[k])
  {
    if ws != [] {
      RejectionsAreOfWorkers(req, ws[..|ws| - 1]);
    }
  }

  lemma WithheldExactly(req: Requirements, v: G.Verdict, ws: seq<Worker>, w: Worker)
    ensures w in Filter(Sort(ws, IdLe()), (u: Worker) => Withheld(req, v, u)) <==> w in ws && Withheld(req, v, w)
  {
    IdLeIsOrder();
    SortSorts(ws, IdLe());
    FilterKeeps(Sort(ws, IdLe()), (u: Worker) => Withheld(req, v, u), w);
    SameElements(Sort(ws, IdLe()), ws, w);
  }

  lemma QuotaRejectionsExactly(req: Requirements, v: G.Verdict, ws: seq<Worker>, id: string)
    ensures Names(QuotaRejections(req, v, ws), id) <==> exists w :: w in ws && w.id == id && Withheld(req, v, w)
  {
    var withheld := Filter(Sort(ws, IdLe()), (w: Worker) => Withheld(req, v, w));
    if k :| 0 <= k < |withheld| && withheld[k].id == id {
      WithheldExactly(req, v, ws, withheld[k]);
    }
    if w :| w in ws && w.id == id && Withheld(req, v, w) {
      WithheldExactly(req, v, ws, w);
      var k :| 0 <= k < |withheld| && withheld[k] == w;
      assert QuotaRejections(req, v, ws)[k].workerId == id;
    }
  }
}
