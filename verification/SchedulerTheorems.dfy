/**
 What the scheduler promises about its whole decision, for workers with distinct ids.
 */
module SchedulerTheorems {
  import opened Options
  import opened Ordering
  import opened Scheduler

  predicate DistinctIds(ws: seq<Worker>) {
    forall i, j :: 0 <= i < j < |ws| ==> ws[i].id != ws[j].id
  }

  lemma SameIdSameWorker(ws: seq<Worker>, a: Worker, b: Worker)
    requires DistinctIds(ws) && a in ws && b in ws && a.id == b.id
    ensures a == b
  {
    var i :| 0 <= i < |ws| && ws[i] == a;
    var j :| 0 <= j < |ws| && ws[j] == b;
    assert i == j;
  }

  // The orders

  lemma ScoreLeOrder(x: real, a: string, y: real, b: string, z: real, c: string)
    ensures ScoreLe(x, a, y, b) || ScoreLe(y, b, x, a)
    ensures ScoreLe(x, a, y, b) && ScoreLe(y, b, x, a) ==> a == b && x == y
    ensures ScoreLe(x, a, y, b) && ScoreLe(y, b, z, c) ==> ScoreLe(x, a, z, c)
  {
    StringLeTotal(a, b);
    if StringLe(a, b) && StringLe(b, c) {
      StringLeTransitive(a, b, c);
    }
  }

  lemma IdLeIsOrder()
    ensures Order(IdLe())
  {
    forall a: Worker, b: Worker, c: Worker
      ensures IdLe()(a, b) || IdLe()(b, a)
      ensures IdLe()(a, b) && IdLe()(b, c) ==> IdLe()(a, c)
    {
      ScoreLeOrder(0.0, a.id, 0.0, b.id, 0.0, c.id);
    }
  }

  lemma RankLeIsOrder(m: map<string, real>)
    ensures Order(RankLe(m))
  {
    forall a: Worker, b: Worker, c: Worker
      ensures RankLe(m)(a, b) || RankLe(m)(b, a)
      ensures RankLe(m)(a, b) && RankLe(m)(b, c) ==> RankLe(m)(a, c)
    {
      ScoreLeOrder(Lookup(m, a.id), a.id, Lookup(m, b.id), b.id, Lookup(m, c.id), c.id);
    }
  }

  lemma FallbackLeIsOrder(preferred: seq<string>, m: map<string, real>)
    ensures Order(FallbackLe(preferred, m))
  {
    var le := FallbackLe(preferred, m);
    forall a: Worker, b: Worker, c: Worker
      ensures le(a, b) || le(b, a)
      ensures le(a, b) && le(b, c) ==> le(a, c)
    {
      ScoreLeOrder(Lookup(m, a.id), a.id, Lookup(m, b.id), b.id, Lookup(m, c.id), c.id);
    }
  }

  lemma CheapLeIsOrder(m: map<string, real>)
    ensures Order(CheapLe(m))
  {
    var le := CheapLe(m);
    forall a: Worker, b: Worker, c: Worker
      ensures le(a, b) || le(b, a)
      ensures le(a, b) && le(b, c) ==> le(a, c)
    {
      ScoreLeOrder(Lookup(m, a.id), a.id, Lookup(m, b.id), b.id, Lookup(m, c.id), c.id);
    }
  }

  // Order independence

  /** The decision does not depend on the order in which distinct workers are listed. */
  lemma ListingOrderIsIrrelevant(
      cfg: Config, req: Requirements, topology: Topology, ws: seq<Worker>, vs: seq<Worker>, ev: Evidence)
    requires DistinctIds(ws) && multiset(ws) == multiset(vs)
    ensures Decide(cfg, req, topology, ws, ev) == Decide(cfg, req, topology, vs, ev)
  {
    IdLeIsOrder();
    forall a, b | a in ws && b in ws && IdLe()(a, b) && IdLe()(b, a)
      ensures a == b
    {
      StringLeTotal(a.id, b.id);
      SameIdSameWorker(ws, a, b);
    }
    SortIgnoresOrder(ws, vs, IdLe());
  }

  // Who is eligible

  lemma EligibleExactly(req: Requirements, ws: seq<Worker>, w: Worker)
    ensures w in Eligible(req, ws) <==> w in ws && Meets(req, w)
  {
    IdLeIsOrder();
    SortSorts(ws, IdLe());
    SameElements(Sort(ws, IdLe()), ws, w);
    FilterKeeps(Sort(ws, IdLe()), (v: Worker) => Meets(req, v), w);
  }

  /** Distinctness of ids is a matter of the multiset of workers. */
  lemma DistinctByCount(ws: seq<Worker>, vs: seq<Worker>)
    requires DistinctIds(ws) && (forall w :: multiset(vs)[w] <= multiset(ws)[w])
    ensures DistinctIds(vs)
  {
    forall i, j | 0 <= i < j < |vs|
      ensures vs[i].id != vs[j].id
    {
      var a, b := vs[i], vs[j];
      assert multiset(vs)[a] >= 1 && multiset(vs)[b] >= 1;
      assert a in multiset(ws) && b in multiset(ws);
      if a == b {
        TwiceMeansTwo(vs, i, j);
        CountedTwice(ws, a);
      } else if a.id == b.id {
        SameIdSameWorker(ws, a, b);
      }
    }
  }

  lemma TwiceMeansTwo(ws: seq<Worker>, i: nat, j: nat)
    requires i < j < |ws| && ws[i] == ws[j]
    ensures multiset(ws)[ws[i]] >= 2
  {
    assert ws == ws[..j] + [ws[j]] + ws[j + 1..];
    assert ws[..j][i] == ws[i];
    assert ws[i] in multiset(ws[..j]);
  }

  lemma {:induction false} CountedTwice(ws: seq<Worker>, w: Worker)
    requires DistinctIds(ws)
    ensures multiset(ws)[w] <= 1
    decreases |ws|
  {
    if ws != [] {
      var n := |ws| - 1;
      CountedTwice(ws[..n], w);
      assert ws == ws[..n] + [ws[n]];
      if ws[n] == w {
        assert w !in ws[..n];
        assert w !in multiset(ws[..n]);
      }
    }
  }

  lemma EligibleIsDistinct(req: Requirements, ws: seq<Worker>)
    requires DistinctIds(ws)
    ensures DistinctIds(Eligible(req, ws))
  {
    IdLeIsOrder();
    SortSorts(ws, IdLe());
    FilterCounts(Sort(ws, IdLe()), (v: Worker) => Meets(req, v));
    DistinctByCount(ws, Eligible(req, ws));
  }

  // Scores by id

  lemma {:induction false} ScoreMapHolds(scores: seq<Scored>, k: nat)
    requires k < |scores| && forall i, j :: 0 <= i < j < |scores| ==> scores[i].workerId != scores[j].workerId
    ensures scores[k].workerId in ScoreMap(scores) && ScoreMap(scores)[scores[k].workerId] == scores[k].score
    decreases |scores|
  {
    if k < |scores| - 1 {
      ScoreMapHolds(scores[..|scores| - 1], k);
    }
  }

  function Marks(cfg: Config, req: Requirements, ws: seq<Worker>, ev: Evidence): map<string, real> {
    ScoreMap(Scores(cfg, req, ev, Eligible(req, ws)))
  }

  /** The dictionary gives every eligible worker its own score. */
  lemma MarksAreScores(cfg: Config, req: Requirements, ws: seq<Worker>, ev: Evidence, w: Worker)
    requires DistinctIds(ws) && w in ws && Meets(req, w)
    ensures Lookup(Marks(cfg, req, ws, ev), w.id) == Score(cfg, req, ev, w)
  {
    EligibleExactly(req, ws, w);
    EligibleIsDistinct(req, ws);
    var k :| 0 <= k < |Eligible(req, ws)| && Eligible(req, ws)[k] == w;
    ScoreMapHolds(Scores(cfg, req, ev, Eligible(req, ws)), k);
  }

  /** The eligible workers, best first. */
  function Ranking(cfg: Config, req: Requirements, ws: seq<Worker>, ev: Evidence): seq<Worker> {
    Sort(Eligible(req, ws), RankLe(Marks(cfg, req, ws, ev)))
  }

  lemma RankingExactly(cfg: Config, req: Requirements, ws: seq<Worker>, ev: Evidence, w: Worker)
    ensures w in Ranking(cfg, req, ws, ev) <==> w in ws && Meets(req, w)
    ensures |Ranking(cfg, req, ws, ev)| == |Eligible(req, ws)|
  {
    RankLeIsOrder(Marks(cfg, req, ws, ev));
    SortSorts(Eligible(req, ws), RankLe(Marks(cfg, req, ws, ev)));
    SameElements(Ranking(cfg, req, ws, ev), Eligible(req, ws), w);
    EligibleExactly(req, ws, w);
  }

  /** w comes before v: a higher score, or the same score and a smaller id. */
  predicate Ahead(cfg: Config, req: Requirements, ev: Evidence, w: Worker, v: Worker) {
    ScoreLe(Score(cfg, req, ev, w), w.id, Score(cfg, req, ev, v), v.id)
  }

  lemma RankingIsByScore(cfg: Config, req: Requirements, ws: seq<Worker>, ev: Evidence, i: nat, j: nat)
    requires DistinctIds(ws) && i < j < |Ranking(cfg, req, ws, ev)|
    ensures Ahead(cfg, req, ev, Ranking(cfg, req, ws, ev)[i], Ranking(cfg, req, ws, ev)[j])
    ensures Ranking(cfg, req, ws, ev)[i].id != Ranking(cfg, req, ws, ev)[j].id
  {
    var m, r := Marks(cfg, req, ws, ev), Ranking(cfg, req, ws, ev);
    RankLeIsOrder(m);
    SortSorts(Eligible(req, ws), RankLe(m));
    RankingExactly(cfg, req, ws, ev, r[i]);
    RankingExactly(cfg, req, ws, ev, r[j]);
    MarksAreScores(cfg, req, ws, ev, r[i]);
    MarksAreScores(cfg, req, ws, ev, r[j]);
    EligibleIsDistinct(req, ws);
    DistinctByCount(Eligible(req, ws), r);
  }

  // One worker: single, fallback and cheap-first

  predicate OneWorker(topology: Topology) { topology.Single? || topology.Fallback? || topology.CheapFirst? }

  /** What a topology for one worker prefers: the score; the list of preferences and then the score; or
      the lower cost and then the score. */
  predicate Preferable(topology: Topology, cfg: Config, req: Requirements, ev: Evidence, w: Worker, v: Worker) {
    match topology
    case Fallback =>
      || RankOf(req.preferred, w.id) < RankOf(req.preferred, v.id)
      || (RankOf(req.preferred, w.id) == RankOf(req.preferred, v.id) && Ahead(cfg, req, ev, w, v))
    case CheapFirst => w.cost > v.cost || (w.cost == v.cost && Ahead(cfg, req, ev, w, v))
    case _ => Ahead(cfg, req, ev, w, v)
  }

  ghost predicate Best(topology: Topology, cfg: Config, req: Requirements, ws: seq<Worker>, ev: Evidence, w: Worker) {
    && w in ws && Meets(req, w)
    && forall v :: v in ws && Meets(req, v) ==> Preferable(topology, cfg, req, ev, w, v)
  }

  function TopologyLe(topology: Topology, req: Requirements, m: map<string, real>): (Worker, Worker) -> bool {
    match topology
    case Fallback => FallbackLe(req.preferred, m)
    case CheapFirst => CheapLe(m)
    case _ => RankLe(m)
  }

  lemma BestIsUnique(
      topology: Topology, cfg: Config, req: Requirements, ws: seq<Worker>, ev: Evidence, u: Worker, w: Worker)
    requires DistinctIds(ws) && Best(topology, cfg, req, ws, ev, u) && Best(topology, cfg, req, ws, ev, w)
    ensures u == w
  {
    assert Preferable(topology, cfg, req, ev, u, w) && Preferable(topology, cfg, req, ev, w, u);
    ScoreLeOrder(Score(cfg, req, ev, u), u.id, Score(cfg, req, ev, w), w.id, 0.0, "");
    SameIdSameWorker(ws, u, w);
  }

  lemma FirstIsBest(topology: Topology, cfg: Config, req: Requirements, ws: seq<Worker>, ev: Evidence, w: Worker)
    requires DistinctIds(ws) && w in ws && Meets(req, w)
    requires forall v :: v in ws && Meets(req, v) ==> TopologyLe(topology, req, Marks(cfg, req, ws, ev))(w, v)
    ensures Best(topology, cfg, req, ws, ev, w)
  {
    forall v | v in ws && Meets(req, v)
      ensures Preferable(topology, cfg, req, ev, w, v)
    {
      MarksAreScores(cfg, req, ws, ev, w);
      MarksAreScores(cfg, req, ws, ev, v);
    }
  }

  /** What the selection puts first is the best of the eligible workers. */
  lemma FirstOfIsBest(
      cfg: Config, req: Requirements, topology: Topology, ws: seq<Worker>, ev: Evidence) returns (w: Worker)
    requires DistinctIds(ws) && OneWorker(topology) && Ranking(cfg, req, ws, ev) != []
    ensures Best(topology, cfg, req, ws, ev, w) && Decide(cfg, req, topology, ws, ev).selected == [w.id]
  {
    var m := Marks(cfg, req, ws, ev);
    w := FirstOf(topology, req, Ranking(cfg, req, ws, ev), m);
    FirstOfIsLeast(topology, req, Eligible(req, ws), m);
    forall v
      ensures v in Eligible(req, ws) <==> v in ws && Meets(req, v)
    {
      EligibleExactly(req, ws, v);
    }
    FirstIsBest(topology, cfg, req, ws, ev, w);
  }

  /** The topologies for one worker select nobody if nobody is eligible, and otherwise the one eligible
      worker that their order puts before all others. */
  lemma OneWorkerIsTheBest(cfg: Config, req: Requirements, topology: Topology, ws: seq<Worker>, ev: Evidence)
    returns (w: Option<Worker>)
    requires DistinctIds(ws) && OneWorker(topology)
    ensures w.None? <==> forall v :: v in ws ==> !Meets(req, v)
    ensures Decide(cfg, req, topology, ws, ev).selected == if w.None? then [] else [w.value.id]
    ensures w.Some? ==> Best(topology, cfg, req, ws, ev, w.value)
    ensures w.Some? ==> forall u :: Best(topology, cfg, req, ws, ev, u) ==> u == w.value
  {
    if Ranking(cfg, req, ws, ev) == [] {
      w := None;
      forall v | v in ws
        ensures !Meets(req, v)
      {
        RankingExactly(cfg, req, ws, ev, v);
      }
    } else {
      var first := FirstOfIsBest(cfg, req, topology, ws, ev);
      w := Some(first);
      forall u | Best(topology, cfg, req, ws, ev, u)
        ensures u == first
      {
        BestIsUnique(topology, cfg, req, ws, ev, u, first);
      }
    }
  }

  /** The worker that the selection puts first. */
  function FirstOf(topology: Topology, req: Requirements, ranked: seq<Worker>, m: map<string, real>): Worker
    requires ranked != []
  {
    var sorted := Sort(ranked, TopologyLe(topology, req, m));
    if topology.Single? || sorted == [] then ranked[0] else sorted[0]
  }

  /** The first of the sorted ranking is the least of the eligible workers. */
  lemma FirstOfRanking(eligible: seq<Worker>, ranked: seq<Worker>, le: (Worker, Worker) -> bool)
    requires Order(le) && ranked != [] && multiset(ranked) == multiset(eligible)
    ensures Sort(ranked, le) != [] && Sort(ranked, le)[0] in eligible
    ensures forall v :: v in eligible ==> le(Sort(ranked, le)[0], v)
  {
    FirstIsLeast(ranked, le);
    forall v
      ensures v in ranked <==> v in eligible
    {
      SameElements(ranked, eligible, v);
    }
  }

  lemma SingleIsFirst(req: Requirements, eligible: seq<Worker>, m: map<string, real>)
    requires Sort(eligible, RankLe(m)) != []
    ensures var w := Sort(eligible, RankLe(m))[0];
            && w in eligible && (forall v :: v in eligible ==> RankLe(m)(w, v))
            && Select(Single, req, Sort(eligible, RankLe(m)), m) == [w.id]
  {
    RankLeIsOrder(m);
    SortSorts(eligible, RankLe(m));
    assert eligible != [];
    FirstIsLeast(eligible, RankLe(m));
  }

  lemma SelectsFirst(req: Requirements, ranked: seq<Worker>, m: map<string, real>)
    requires ranked != []
    ensures Sort(ranked, FallbackLe(req.preferred, m)) != [] ==>
      Select(Fallback, req, ranked, m) == [Sort(ranked, FallbackLe(req.preferred, m))[0].id]
    ensures Sort(ranked, CheapLe(m)) != [] ==>
      Select(CheapFirst, req, ranked, m) == [Sort(ranked, CheapLe(m))[0].id]
  {
  }

  lemma FallbackIsFirst(req: Requirements, eligible: seq<Worker>, ranked: seq<Worker>, m: map<string, real>)
    requires ranked != [] && multiset(ranked) == multiset(eligible)
    ensures var le := FallbackLe(req.preferred, m);
            && Sort(ranked, le) != [] && Sort(ranked, le)[0] in eligible
            && (forall v :: v in eligible ==> le(Sort(ranked, le)[0], v))
            && Select(Fallback, req, ranked, m) == [Sort(ranked, le)[0].id]
  {
    FallbackLeIsOrder(req.preferred, m);
    FirstOfRanking(eligible, ranked, FallbackLe(req.preferred, m));
    SelectsFirst(req, ranked, m);
  }

  lemma CheapIsFirst(req: Requirements, eligible: seq<Worker>, ranked: seq<Worker>, m: map<string, real>)
    requires ranked != [] && multiset(ranked) == multiset(eligible)
    ensures && Sort(ranked, CheapLe(m)) != [] && Sort(ranked, CheapLe(m))[0] in eligible
            && (forall v :: v in eligible ==> CheapLe(m)(Sort(ranked, CheapLe(m))[0], v))
            && Select(CheapFirst, req, ranked, m) == [Sort(ranked, CheapLe(m))[0].id]
  {
    CheapLeIsOrder(m);
    FirstOfRanking(eligible, ranked, CheapLe(m));
    SelectsFirst(req, ranked, m);
  }

  lemma FirstOfIsLeast(topology: Topology, req: Requirements, eligible: seq<Worker>, m: map<string, real>)
    requires OneWorker(topology) && Sort(eligible, RankLe(m)) != []
    ensures var ranked := Sort(eligible, RankLe(m));
            var w := FirstOf(topology, req, ranked, m);
            && w in eligible && (forall v :: v in eligible ==> TopologyLe(topology, req, m)(w, v))
            && Select(topology, req, ranked, m) == [w.id]
  {
    RankLeIsOrder(m);
    SortSorts(eligible, RankLe(m));
    match topology
    case Single => SingleIsFirst(req, eligible, m);
    case Fallback => FallbackIsFirst(req, eligible, Sort(eligible, RankLe(m)), m);
    case CheapFirst => CheapIsFirst(req, eligible, Sort(eligible, RankLe(m)), m);
  }

  predicate NoRepeats(s: seq<string>) { forall j, k :: 0 <= j < k < |s| ==> s[j] != s[k] }

  /** Every listed worker comes before every worker that is not listed. */
  predicate Honoured(preferred: seq<string>) {
    forall k :: 0 <= k < |preferred| ==> RankOf(preferred, preferred[k]) < |PreferredRank(preferred)|
  }

  /** The preferences are honoured exactly if none is listed twice: a repeated entry leaves the last
      of the list no better than a worker nobody listed. */
  lemma PreferencesAreHonoured(preferred: seq<string>)
    ensures Honoured(preferred) <==> NoRepeats(preferred)
  {
    KeysAreCounted(PreferredRank(preferred));
    if NoRepeats(preferred) {
      DistinctFill(preferred);
      forall k | 0 <= k < |preferred|
        ensures RankOf(preferred, preferred[k]) < |PreferredRank(preferred)|
      {
        ListedExactly(preferred, preferred[k]);
      }
    } else {
      RepeatedFallShort(preferred);
      assert RankOf(preferred, preferred[|preferred| - 1]) == |preferred| - 1;
    }
  }

  lemma KeysAreCounted(m: map<string, nat>)
    ensures |m| == |m.Keys|
  {
  }

  lemma {:induction false} ListedExactly(s: seq<string>, id: string)
    ensures id in Listed(s) <==> id in s
  {
    if s != [] {
      ListedExactly(s[..|s| - 1], id);
      assert s == s[..|s| - 1] + [s[|s| - 1]];
    }
  }

  lemma {:induction false} DistinctFill(s: seq<string>)
    requires NoRepeats(s)
    ensures |Listed(s)| == |s|
  {
    if s != [] {
      DistinctFill(s[..|s| - 1]);
      ListedExactly(s[..|s| - 1], s[|s| - 1]);
    }
  }

  lemma {:induction false} SetIsShort(s: seq<string>)
    ensures |Listed(s)| <= |s|
  {
    if s != [] {
      SetIsShort(s[..|s| - 1]);
    }
  }

  lemma {:induction false} RepeatedFallShort(s: seq<string>)
    requires !NoRepeats(s)
    ensures |Listed(s)| < |s|
  {
    var n := |s| - 1;
    SetIsShort(s[..n]);
    ListedExactly(s[..n], s[n]);
    if s[n] in s[..n] {
      assert Listed(s) == Listed(s[..n]);
    } else {
      var j, k :| 0 <= j < k < |s| && s[j] == s[k];
      assert s[..n][j] == s[j];
      assert k < n && s[..n][k] == s[k];
      RepeatedFallShort(s[..n]);
    }
  }

  // Panels

  /** A panel of at least one is the best panel_size eligible workers, or nobody. */
  lemma PanelIsTheTop(cfg: Config, req: Requirements, ws: seq<Worker>, ev: Evidence)
    requires req.panelSize >= 1
    ensures Decide(cfg, req, ParallelPanel, ws, ev).selected
            == if |Ranking(cfg, req, ws, ev)| < req.panelSize then []
                else Ids(Ranking(cfg, req, ws, ev)[..req.panelSize])
  {
    RankLeIsOrder(Marks(cfg, req, ws, ev));
    SortSorts(Eligible(req, ws), RankLe(Marks(cfg, req, ws, ev)));
  }

  // Primary and reviewer

  lemma {:induction false} FirstReviewerIsFirst(ws: seq<Worker>, primary: string) returns (k: nat)
    ensures FirstReviewer(ws, primary).None? ==> k == |ws|
    ensures FirstReviewer(ws, primary).Some? ==>
      k < |ws| && ws[k] == FirstReviewer(ws, primary).value && Reviews(ws[k], primary)
    ensures forall j :: 0 <= j < k ==> !Reviews(ws[j], primary)
    decreases |ws|
  {
    if ws == [] || Reviews(ws[0], primary) {
      k := 0;
    } else {
      var i := FirstReviewerIsFirst(ws[1..], primary);
      k := i + 1;
      forall j | 0 <= j < k
        ensures !Reviews(ws[j], primary)
      {
        assert j > 0 ==> ws[j] == ws[1..][j - 1];
      }
    }
  }

  /** The eligible worker that is ahead of all others. */
  ghost predicate Top(cfg: Config, req: Requirements, ws: seq<Worker>, ev: Evidence, w: Worker) {
    w in ws && Meets(req, w) && forall v :: v in ws && Meets(req, v) && v != w ==> Ahead(cfg, req, ev, w, v)
  }

  lemma FirstIsTop(cfg: Config, req: Requirements, ws: seq<Worker>, ev: Evidence)
    requires DistinctIds(ws) && Ranking(cfg, req, ws, ev) != []
    ensures Top(cfg, req, ws, ev, Ranking(cfg, req, ws, ev)[0])
  {
    var r := Ranking(cfg, req, ws, ev);
    RankingExactly(cfg, req, ws, ev, r[0]);
    forall v | v in ws && Meets(req, v) && v != r[0]
      ensures Ahead(cfg, req, ev, r[0], v)
    {
      RankingExactly(cfg, req, ws, ev, v);
      var j :| 0 <= j < |r| && r[j] == v;
      RankingIsByScore(cfg, req, ws, ev, 0, j);
    }
  }

  lemma TopIsUnique(cfg: Config, req: Requirements, ws: seq<Worker>, ev: Evidence, u: Worker, w: Worker)
    requires DistinctIds(ws) && Top(cfg, req, ws, ev, u) && Top(cfg, req, ws, ev, w)
    ensures u == w
  {
    if u != w {
      ScoreLeOrder(Score(cfg, req, ev, u), u.id, Score(cfg, req, ev, w), w.id, 0.0, "");
      SameIdSameWorker(ws, u, w);
    }
  }

  /** An eligible worker that can review for the top one. */
  predicate CanReview(req: Requirements, ws: seq<Worker>, primary: Worker, v: Worker) {
    v in ws && Meets(req, v) && Reviews(v, primary.id)
  }

  lemma ReviewedSelection(cfg: Config, req: Requirements, ws: seq<Worker>, ev: Evidence)
    requires Ranking(cfg, req, ws, ev) != []
    ensures var r := Ranking(cfg, req, ws, ev);
            var reviewer := FirstReviewer(r, r[0].id);
            Decide(cfg, req, PrimaryReviewer, ws, ev).selected ==
              if reviewer.None? then [] else [r[0].id, reviewer.value.id]
  {
    var m, r := Marks(cfg, req, ws, ev), Ranking(cfg, req, ws, ev);
    assert |Select(PrimaryReviewer, req, r, m)| == 2 <==> FirstReviewer(r, r[0].id).Some?;
  }

  /** The first reviewer in the ranking is ahead of every other one. */
  lemma FirstReviewerIsBest(cfg: Config, req: Requirements, ws: seq<Worker>, ev: Evidence, top: Worker, v: Worker)
    requires DistinctIds(ws) && CanReview(req, ws, top, v)
    ensures var reviewer := FirstReviewer(Ranking(cfg, req, ws, ev), top.id);
            reviewer.Some? && (v != reviewer.value ==> Ahead(cfg, req, ev, reviewer.value, v))
  {
    var r := Ranking(cfg, req, ws, ev);
    var k := FirstReviewerIsFirst(r, top.id);
    RankingExactly(cfg, req, ws, ev, v);
    var j :| 0 <= j < |r| && r[j] == v;
    if k < j {
      RankingIsByScore(cfg, req, ws, ev, k, j);
    }
  }

  /** Primary and reviewer: nobody, exactly if no eligible worker but the top one can review; or else
      the top worker and, a different one, the best reviewer beside it. */
  lemma PrimaryAndReviewer(cfg: Config, req: Requirements, ws: seq<Worker>, ev: Evidence, top: Worker)
    returns (reviewer: Option<Worker>)
    requires DistinctIds(ws) && Top(cfg, req, ws, ev, top)
    ensures reviewer.None? <==> forall v :: !CanReview(req, ws, top, v)
    ensures Decide(cfg, req, PrimaryReviewer, ws, ev).selected ==
        if reviewer.None? then [] else [top.id, reviewer.value.id]
    ensures reviewer.Some? ==> CanReview(req, ws, top, reviewer.value) && top.id != reviewer.value.id
    ensures reviewer.Some? ==>
      forall v :: CanReview(req, ws, top, v) && v != reviewer.value ==> Ahead(cfg, req, ev, reviewer.value, v)
  {
    var r := Ranking(cfg, req, ws, ev);
    RankingExactly(cfg, req, ws, ev, top);
    FirstIsTop(cfg, req, ws, ev);
    TopIsUnique(cfg, req, ws, ev, r[0], top);
    ReviewedSelection(cfg, req, ws, ev);
    reviewer := FirstReviewer(r, top.id);
    var k := FirstReviewerIsFirst(r, top.id);
    if reviewer.Some? {
      RankingExactly(cfg, req, ws, ev, reviewer.value);
      assert CanReview(req, ws, top, reviewer.value);
    }
    forall v | CanReview(req, ws, top, v)
      ensures reviewer.Some? && (v != reviewer.value ==> Ahead(cfg, req, ev, reviewer.value, v))
    {
      FirstReviewerIsBest(cfg, req, ws, ev, top, v);
    }
  }
}
