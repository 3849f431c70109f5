/**
 The scheduler when more workers become eligible, and the probe that asks whether busy workers could
 help (src/project_supervisor/scheduler.py, src/project_supervisor/runtime.py). Here the evidence stays
 fixed; Deferral compares the probe with a later routing decision, which consults the guard again.
 */
module Capacity {
  import opened Ordering
  import opened Scheduler
  import opened SchedulerTheorems

  function Elements(ws: seq<Worker>): set<Worker> {
    if ws == [] then {} else Elements(ws[..|ws| - 1]) + {ws[|ws| - 1]}
  }

  lemma {:induction false} ElementsExactly(ws: seq<Worker>, w: Worker)
    ensures w in Elements(ws) <==> w in ws
  {
    if ws != [] {
      ElementsExactly(ws[..|ws| - 1], w);
      assert ws == ws[..|ws| - 1] + [ws[|ws| - 1]];
    }
  }

  lemma {:induction false} ElementsCount(ws: seq<Worker>)
    ensures |Elements(ws)| <= |ws| && (DistinctIds(ws) ==> |Elements(ws)| == |ws|)
  {
    if ws != [] {
      ElementsCount(ws[..|ws| - 1]);
      ElementsExactly(ws[..|ws| - 1], ws[|ws| - 1]);
    }
  }

  lemma SubsetIsShorter(ws: seq<Worker>, vs: seq<Worker>)
    requires DistinctIds(ws) && forall w :: w in ws ==> w in vs
    ensures |ws| <= |vs|
  {
    ElementsCount(ws);
    ElementsCount(vs);
    forall w | w in Elements(ws)
      ensures w in Elements(vs)
    {
      ElementsExactly(ws, w);
      ElementsExactly(vs, w);
    }
    SubsetCardinality(Elements(ws), Elements(vs));
  }

  lemma SubsetCardinality(a: set<Worker>, b: set<Worker>)
    requires a <= b
    ensures |a| <= |b|
  {
    assert b == a + (b - a);
  }

  /** Whoever is eligible among ws is among vs too. */
  ghost predicate Covers(req: Requirements, ws: seq<Worker>, vs: seq<Worker>) {
    forall w :: w in ws && Meets(req, w) ==> w in vs
  }

  lemma MoreEligible(req: Requirements, ws: seq<Worker>, vs: seq<Worker>)
    requires DistinctIds(ws) && DistinctIds(vs) && Covers(req, ws, vs)
    ensures |Eligible(req, ws)| <= |Eligible(req, vs)|
  {
    EligibleIsDistinct(req, ws);
    forall w | w in Eligible(req, ws)
      ensures w in Eligible(req, vs)
    {
      EligibleExactly(req, ws, w);
      EligibleExactly(req, vs, w);
    }
    SubsetIsShorter(Eligible(req, ws), Eligible(req, vs));
  }

  predicate Fills(n: nat, panelSize: int) {
    if panelSize >= 1 then n >= panelSize else n > -panelSize > 0
  }

  lemma PanelSelection(req: Requirements, ranked: seq<Worker>, m: map<string, real>)
    ensures var selected := Select(ParallelPanel, req, ranked, m);
            (selected != [] && Shortage(ParallelPanel, req, selected) == []) <==> Fills(|ranked|, req.panelSize)
  {
    var selected := Select(ParallelPanel, req, ranked, m);
    assert |selected| == |Prefix(ranked, req.panelSize)|;
  }

  /** When a panel is filled, for any panel size at all: never for zero, and for a negative size with all
      but that many of the ranking. */
  lemma PanelIsFilled(cfg: Config, req: Requirements, ws: seq<Worker>, ev: Evidence)
    ensures Decide(cfg, req, ParallelPanel, ws, ev).selected != [] <==> Fills(|Eligible(req, ws)|, req.panelSize)
  {
    var m := Marks(cfg, req, ws, ev);
    RankLeIsOrder(m);
    SortSorts(Eligible(req, ws), RankLe(m));
    PanelSelection(req, Sort(Eligible(req, ws), RankLe(m)), m);
  }

  lemma ReviewSurvivesGrowth(cfg: Config, req: Requirements, ws: seq<Worker>, vs: seq<Worker>, ev: Evidence)
    requires DistinctIds(ws) && DistinctIds(vs) && Covers(req, ws, vs)
    requires Decide(cfg, req, PrimaryReviewer, ws, ev).selected != []
    ensures Decide(cfg, req, PrimaryReviewer, vs, ev).selected != []
  {
    var r, s := Ranking(cfg, req, ws, ev), Ranking(cfg, req, vs, ev);
    assert r != [];
    FirstIsTop(cfg, req, ws, ev);
    var top := r[0];
    var reviewer := PrimaryAndReviewer(cfg, req, ws, ev, top);
    assert CanReview(req, ws, top, reviewer.value);
    RankingExactly(cfg, req, vs, ev, top);
    FirstIsTop(cfg, req, vs, ev);
    var above := s[0];
    if reviewer.value == above {
      // The reviewer cannot have overtaken the primary: both rank as they did before.
      assert Ahead(cfg, req, ev, above, top) && Ahead(cfg, req, ev, top, above);
      ScoreLeOrder(Score(cfg, req, ev, above), above.id, Score(cfg, req, ev, top), top.id, 0.0, "");
      assert false;
    }
    assert reviewer.value.id != above.id by {
      if reviewer.value.id == above.id { SameIdSameWorker(vs, reviewer.value, above); }
    }
    assert CanReview(req, vs, above, reviewer.value);
    var other := PrimaryAndReviewer(cfg, req, vs, ev, above);
  }

  /** Enlarging the eligible set never turns a selection empty, whatever the topology. */
  lemma SelectionSurvivesGrowth(
      cfg: Config, req: Requirements, topology: Topology, ws: seq<Worker>, vs: seq<Worker>, ev: Evidence)
    requires DistinctIds(ws) && DistinctIds(vs) && Covers(req, ws, vs)
    requires Decide(cfg, req, topology, ws, ev).selected != []
    ensures Decide(cfg, req, topology, vs, ev).selected != []
  {
    if OneWorker(topology) {
      var w := OneWorkerIsTheBest(cfg, req, topology, ws, ev);
      var v := OneWorkerIsTheBest(cfg, req, topology, vs, ev);
      assert w.value in vs && Meets(req, w.value);
    } else if topology.ParallelPanel? {
      PanelIsFilled(cfg, req, ws, ev);
      PanelIsFilled(cfg, req, vs, ev);
      MoreEligible(req, ws, vs);
    } else {
      ReviewSurvivesGrowth(cfg, req, ws, vs, ev);
    }
  }

  // The probe

  predicate Busy(w: Worker) { w.state.Starting? || w.state.Running? || w.state.Waiting? }

  /** The workers as they would be if the busy ones among the given ids became idle. */
  function Freed(ws: seq<Worker>, ids: set<string>): (r: seq<Worker>)
    ensures |r| == |ws|
    ensures forall k :: 0 <= k < |ws| ==>
        r[k] == if Busy(ws[k]) && ws[k].id in ids then ws[k].(state := Idle) else ws[k]
  {
    seq(|ws|, k requires 0 <= k < |ws| => if Busy(ws[k]) && ws[k].id in ids then ws[k].(state := Idle) else ws[k])
  }

  function AllIds(ws: seq<Worker>): set<string> { set k | 0 <= k < |ws| :: ws[k].id }

  /** _transient_capacity_possible: is anybody busy whose release could let the task be dispatched? */
  predicate TransientCapacityPossible(
      cfg: Config, req: Requirements, topology: Topology, ws: seq<Worker>, ev: Evidence) {
    (exists k :: 0 <= k < |ws| && Busy(ws[k])) && Decide(cfg, req, topology, Freed(ws, AllIds(ws)), ev).selected != []
  }

  lemma FreeingCovers(req: Requirements, ws: seq<Worker>, ids: set<string>)
    requires DistinctIds(ws)
    ensures DistinctIds(Freed(ws, ids)) && Covers(req, Freed(ws, ids), Freed(ws, AllIds(ws)))
  {
    var some, all := Freed(ws, ids), Freed(ws, AllIds(ws));
    forall w | w in some && Meets(req, w)
      ensures w in all
    {
      var k :| 0 <= k < |some| && some[k] == w;
      assert ws[k].id in AllIds(ws);
      assert all[k] == w;
    }
  }

  /** For the scheduler alone, under fixed evidence, the probe with all busy workers idle answers for
      every set of them. */
  lemma ProbeCoversSubsets(
      cfg: Config, req: Requirements, topology: Topology, ws: seq<Worker>, ev: Evidence, ids: set<string>)
    requires DistinctIds(ws) && Decide(cfg, req, topology, ws, ev).selected == []
    ensures !TransientCapacityPossible(cfg, req, topology, ws, ev) ==>
      Decide(cfg, req, topology, Freed(ws, ids), ev).selected == []
    ensures TransientCapacityPossible(cfg, req, topology, ws, ev) <==>
      Decide(cfg, req, topology, Freed(ws, AllIds(ws)), ev).selected != []
  {
    var some, all := Freed(ws, ids), Freed(ws, AllIds(ws));
    if forall k :: 0 <= k < |ws| ==> !Busy(ws[k]) {
      assert some == ws && all == ws;
    } else if Decide(cfg, req, topology, some, ev).selected != [] {
      FreeingCovers(req, ws, ids);
      FreeingCovers(req, ws, AllIds(ws));
      SelectionSurvivesGrowth(cfg, req, topology, some, all, ev);
    }
  }
}
