/**
 What a list of preferred workers means for the selected worker (src/project_supervisor/scheduler.py).
 */
module Preferences {
  import opened Options
  import opened Scheduler
  import opened SchedulerTheorems
  import opened DefaultScores

  /** With no repeated entry a listed worker is selected whenever one is eligible. */
  lemma ListedAreSelected(cfg: Config, req: Requirements, ws: seq<Worker>, ev: Evidence, w: Worker)
    requires NoRepeats(req.preferred) && DistinctIds(ws) && w in ws && Meets(req, w) && w.id in req.preferred
    ensures exists id :: Decide(cfg, req, Fallback, ws, ev).selected == [id] && id in req.preferred
  {
    var best := OneWorkerIsTheBest(cfg, req, Fallback, ws, ev);
    var b := best.value;
    assert Preferable(Fallback, cfg, req, ev, b, w);
    PreferencesAreHonoured(req.preferred);
    var k :| 0 <= k < |req.preferred| && req.preferred[k] == w.id;
    assert RankOf(req.preferred, b.id) <= RankOf(req.preferred, w.id) < |PreferredRank(req.preferred)|;
    ListedExactly(req.preferred, b.id);
  }

  // A list with a repeated entry

  /** A name longer than every name in the list. */
  function Longer(s: seq<string>): string { if s == [] then "x" else Longer(s[..|s| - 1]) + s[|s| - 1] }

  lemma {:induction false} LongerIsNotListed(s: seq<string>)
    ensures |Longer(s)| >= 1 && forall k :: 0 <= k < |s| ==> |s[k]| < |Longer(s)|
  {
    if s != [] {
      LongerIsNotListed(s[..|s| - 1]);
      assert forall k :: 0 <= k < |s| - 1 ==> s[..|s| - 1][k] == s[k];
    }
  }

  function Plain(id: string, quality: real): Worker {
    Worker(id, "p", Idle, NodeOnline, Available, {}, true, true, None, quality, 0.5, 30.0, 0.5, 0.0)
  }

  function Prefers(preferred: seq<string>): Requirements {
    Requirements({}, Green, NotRequired, None, false, false, 2, preferred)
  }

  lemma LastIsNoBetter(preferred: seq<string>)
    requires !NoRepeats(preferred)
    ensures RankOf(preferred, preferred[|preferred| - 1]) == |preferred| - 1 >= |PreferredRank(preferred)|
    ensures RankOf(preferred, Longer(preferred)) == |PreferredRank(preferred)|
  {
    RepeatedFallShort(preferred);
    KeysAreCounted(PreferredRank(preferred));
    LongerIsNotListed(preferred);
    ListedExactly(preferred, Longer(preferred));
  }

  lemma QualityWins(cfg: Config, preferred: seq<string>, a: string, b: string)
    requires Default(cfg)
    ensures Score(cfg, Prefers(preferred), map[], Plain(a, 0.0)) < Score(cfg, Prefers(preferred), map[], Plain(b, 1.0))
  {
    MarginDecides(cfg, Prefers(preferred), map[], Plain(a, 0.0), Plain(b, 1.0));
  }

  /** Two workers of which the second has the higher score and no worse a rank: it is selected. */
  lemma SecondIsSelected(cfg: Config, req: Requirements, ev: Evidence, v: Worker, w: Worker)
    requires DistinctIds([v, w]) && Meets(req, v) && Meets(req, w)
    requires RankOf(req.preferred, w.id) <= RankOf(req.preferred, v.id)
        && Score(cfg, req, ev, v) < Score(cfg, req, ev, w)
    ensures Decide(cfg, req, Fallback, [v, w], ev).selected == [w.id]
  {
    ScoreLeOrder(Score(cfg, req, ev, w), w.id, Score(cfg, req, ev, w), w.id, 0.0, "");
    assert Best(Fallback, cfg, req, [v, w], ev, w);
    var best := OneWorkerIsTheBest(cfg, req, Fallback, [v, w], ev);
  }

  /** For every list with a repeated entry there are two eligible workers, one of them listed, of which
      the other one is selected. */
  lemma UnlistedCanWin(cfg: Config, preferred: seq<string>) returns (listed: Worker, other: Worker)
    requires Default(cfg) && !NoRepeats(preferred)
    ensures listed.id in preferred && other.id !in preferred && DistinctIds([listed, other])
    ensures Meets(Prefers(preferred), listed) && Meets(Prefers(preferred), other)
    ensures Decide(cfg, Prefers(preferred), Fallback, [listed, other], map[]).selected == [other.id]
  {
    listed, other := Plain(preferred[|preferred| - 1], 0.0), Plain(Longer(preferred), 1.0);
    LongerIsNotListed(preferred);
    LastIsNoBetter(preferred);
    QualityWins(cfg, preferred, listed.id, other.id);
    SecondIsSelected(cfg, Prefers(preferred), map[], listed, other);
  }

  /** The decision honours the list: for these workers, none that is unlisted is selected over w. */
  ghost predicate Honours(cfg: Config, req: Requirements, ws: seq<Worker>, ev: Evidence, w: Worker) {
    DistinctIds(ws) && w in ws && Meets(req, w) && w.id in req.preferred ==>
      forall id :: id in Decide(cfg, req, Fallback, ws, ev).selected ==> id in req.preferred
  }

  ghost predicate AlwaysHonoured(cfg: Config, preferred: seq<string>) {
    forall req: Requirements, ws, ev, w :: req.preferred == preferred ==> Honours(cfg, req, ws, ev, w)
  }

  lemma OthersDishonour(cfg: Config, req: Requirements, ws: seq<Worker>, ev: Evidence, w: Worker, id: string)
    requires DistinctIds(ws) && w in ws && Meets(req, w) && w.id in req.preferred
    requires id !in req.preferred && Decide(cfg, req, Fallback, ws, ev).selected == [id]
    ensures !Honours(cfg, req, ws, ev, w)
  {
    assert id in [id];
  }

  lemma RepeatsAreNotHonoured(cfg: Config, preferred: seq<string>)
    requires Default(cfg) && !NoRepeats(preferred)
    ensures !AlwaysHonoured(cfg, preferred)
  {
    var listed, other := UnlistedCanWin(cfg, preferred);
    OthersDishonour(cfg, Prefers(preferred), [listed, other], map[], listed, other.id);
  }

  /** Fallback honours a list of preferences for all workers if and only if no entry is repeated. */
  lemma PreferencesDecideExactly(cfg: Config, preferred: seq<string>)
    requires Default(cfg)
    ensures AlwaysHonoured(cfg, preferred) <==> NoRepeats(preferred)
  {
    if NoRepeats(preferred) {
      forall req: Requirements, ws, ev, w | req.preferred == preferred
        ensures Honours(cfg, req, ws, ev, w)
      {
        if DistinctIds(ws) && w in ws && Meets(req, w) && w.id in req.preferred {
          ListedAreSelected(cfg, req, ws, ev, w);
        }
      }
    } else {
      RepeatsAreNotHonoured(cfg, preferred);
    }
  }
}
