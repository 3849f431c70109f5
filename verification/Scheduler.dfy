/**
 The deterministic scheduler (src/project_supervisor/scheduler.py): hard constraints, weighted
 scores, a stable ranking and one selection rule for each topology.
 */
module Scheduler {
  import opened Options
  import opened Ordering

  datatype NodeState = NodeOnline | NodeDegraded | NodeOffline | Unprovisioned
  datatype WorkerState = Idle | Starting | Running | Waiting | RateLimited | Stopping | Offline | Failed
  datatype ResourceState = Available | Warning | ResourceRateLimited | BudgetExhausted | Cooldown | Unknown
  datatype PermissionClass = Green | Yellow | Red
  datatype ApprovalState = NotRequired | Pending | Approved | Rejected | Expired
  datatype Topology = Single | PrimaryReviewer | ParallelPanel | CheapFirst | Fallback

  datatype Worker = Worker(
    id: string,
    provider: string,
    state: WorkerState,
    node: NodeState,
    resource: ResourceState,
    capabilities: set<string>,
    codeWriteAllowed: bool,
    privacyAllowed: bool,
    contextWindow: Option<int>,
    quality: real,
    reliability: real,
    latency: real,
    cost: real,
    nodeLoad: real)

  datatype Requirements = Requirements(
    capabilities: set<string>,
    permission: PermissionClass,
    approval: ApprovalState,
    minimumContext: Option<int>,
    privacySensitive: bool,
    codeWrite: bool,
    panelSize: int,
    preferred: seq<string>)

  datatype Code = NodeUnavailable | WorkerUnavailable | ResourceUnavailable | CapabilityMismatch | CodeWriteForbidden
                | PrivacyMismatch | ContextUnknown | ContextInsufficient | HumanApprovalRequired
                | ReviewerUnavailable | PanelSizeUnavailable | QuotaGuarded
  datatype Rejection = Rejection(workerId: string, code: Code)
  datatype Scored = Scored(workerId: string, score: real)
  datatype Decision = Decision(selected: seq<string>, candidates: seq<Scored>, rejected: seq<Rejection>)

  /** Ten weights, in the order of the score components, and the rounding of scores. */
  type Weights = w: seq<real> | |w| == 10 witness seq(10, _ => 1.0)
  datatype Config = Config(weights: Weights, round: real -> real)

  /** Health scores by worker, as the resource evidence reports them. */
  type Evidence = map<string, real>

  // Hard constraints

  function When(c: bool, w: Worker, code: Code): seq<Rejection> {
    if c then [Rejection(w.id, code)] else []
  }

  predicate ContextMet(req: Requirements, w: Worker) {
    req.minimumContext.Some? ==> w.contextWindow.Some? && req.minimumContext.value <= w.contextWindow.value
  }

  predicate Usable(w: Worker) {
    && w.node.NodeOnline? && w.state.Idle?
    && !w.resource.ResourceRateLimited? && !w.resource.BudgetExhausted? && !w.resource.Cooldown?
  }

  predicate Permitted(req: Requirements, w: Worker) {
    && req.capabilities <= w.capabilities
    && (req.codeWrite ==> w.codeWriteAllowed)
    && (req.privacySensitive ==> w.privacyAllowed)
  }

  /** A worker that no hard constraint rules out. */
  predicate Meets(req: Requirements, w: Worker) {
    Usable(w) && Permitted(req, w) && ContextMet(req, w) && (req.permission.Red? ==> req.approval.Approved?)
  }

  predicate AllOf(r: seq<Rejection>, id: string) {
    forall k :: 0 <= k < |r| ==> r[k].workerId == id && OfWorker(r[k])
  }

  function UnavailabilityReasons(w: Worker): (r: seq<Rejection>)
    ensures r == [] <==> Usable(w)
    ensures AllOf(r, w.id)
  {
    When(!w.node.NodeOnline?, w, NodeUnavailable)
    + When(!w.state.Idle?, w, WorkerUnavailable)
    + When(w.resource in {ResourceRateLimited, BudgetExhausted, Cooldown}, w, ResourceUnavailable)
  }

  function PolicyReasons(req: Requirements, w: Worker): (r: seq<Rejection>)
    ensures r == [] <==> Permitted(req, w)
    ensures AllOf(r, w.id)
  {
    var missing := req.capabilities - w.capabilities;
    assert missing == {} ==> forall c :: c in req.capabilities ==> c in w.capabilities || c in missing;
    When(missing != {}, w, CapabilityMismatch)
    + When(req.codeWrite && !w.codeWriteAllowed, w, CodeWriteForbidden)
    + When(req.privacySensitive && !w.privacyAllowed, w, PrivacyMismatch)
  }

  function TaskReasons(req: Requirements, w: Worker): (r: seq<Rejection>)
    ensures r == [] <==> ContextMet(req, w) && (req.permission.Red? ==> req.approval.Approved?)
    ensures AllOf(r, w.id)
  {
    (if req.minimumContext.None? then []
     else if w.contextWindow.None? then [Rejection(w.id, ContextUnknown)]
     else When(w.contextWindow.value < req.minimumContext.value, w, ContextInsufficient))
    + When(req.permission.Red? && !req.approval.Approved?, w, HumanApprovalRequired)
  }

  /** Every reason against a worker; there is none exactly for the workers that meet the task. */
  function HardConstraints(req: Requirements, w: Worker): (r: seq<Rejection>)
    ensures r == [] <==> Meets(req, w)
    ensures AllOf(r, w.id)
  {
    UnavailabilityReasons(w) + PolicyReasons(req, w) + TaskReasons(req, w)
  }

  predicate OfWorker(r: Rejection) { !r.code.ReviewerUnavailable? && !r.code.PanelSizeUnavailable? }

  // Scores

  function Clamp(x: real): (r: real)
    ensures 0.0 <= r <= 1.0
  {
    if x < 0.0 then 0.0 else if x > 1.0 then 1.0 else x
  }

  function DefaultHealth(r: ResourceState): real {
    match r
    case Available => 1.0
    case Warning => 0.5
    case Unknown => 0.25
    case _ => 0.0
  }

  function CapabilityFit(req: Requirements, w: Worker): real {
    if req.capabilities == {} then 1.0 else (|req.capabilities * w.capabilities| as real) / (|req.capabilities| as real)
  }

  function ContextFit(req: Requirements, w: Worker): real {
    if req.minimumContext.None? || req.minimumContext.value == 0 then 1.0
    else
      var window := if w.contextWindow.Some? then w.contextWindow.value else 0;
      var ratio := (window as real) / (req.minimumContext.value as real);
      if ratio < 1.0 then ratio else 1.0
  }

  function Components(req: Requirements, w: Worker, health: Option<real>): (r: seq<real>)
    ensures |r| == 10
  {
    [CapabilityFit(req, w),
     Clamp(w.quality),
     if w.state.Idle? then 1.0 else 0.0,
     if health.Some? then health.value else DefaultHealth(w.resource),
     Clamp(w.cost),
     1.0 / (1.0 + (if w.latency > 0.0 then w.latency else 0.0) / 60.0),
     Clamp(w.reliability),
     1.0 - Clamp(w.nodeLoad),
     if !req.privacySensitive || w.privacyAllowed then 1.0 else 0.0,
     ContextFit(req, w)]
  }

  function Sum(w: seq<real>): real { if w == [] then 0.0 else Sum(w[..|w| - 1]) + w[|w| - 1] }

  function Dot(c: seq<real>, w: seq<real>): real
    requires |c| == |w|
  {
    if c == [] then 0.0 else Dot(c[..|c| - 1], w[..|w| - 1]) + c[|c| - 1] * w[|w| - 1]
  }

  function HealthOf(ev: Evidence, id: string): Option<real> { if id in ev then Some(ev[id]) else None }

  /** The score of a worker, from the worker and the evidence about it alone. */
  function Score(cfg: Config, req: Requirements, ev: Evidence, w: Worker): real {
    if Sum(cfg.weights) == 0.0 then 0.0
    else cfg.round(Dot(Components(req, w, HealthOf(ev, w.id)), cfg.weights) / Sum(cfg.weights))
  }

  lemma {:induction false} DotIsMonotone(c: seq<real>, d: seq<real>, w: seq<real>)
    requires |c| == |d| == |w| && (forall k :: 0 <= k < |w| ==> w[k] >= 0.0 && c[k] <= d[k])
    ensures Dot(c, w) <= Dot(d, w)
  {
    if w != [] {
      var n := |w| - 1;
      DotIsMonotone(c[..n], d[..n], w[..n]);
      assert c[n] * w[n] <= d[n] * w[n];
    }
  }

  /** A worker that is nowhere worse never scores lower, whatever monotone rounding is used. */
  lemma BetterWorkersScoreHigher(cfg: Config, req: Requirements, ev: Evidence, v: Worker, w: Worker)
    requires Sum(cfg.weights) > 0.0 && (forall k :: 0 <= k < 10 ==> cfg.weights[k] >= 0.0)
    requires forall x, y :: x <= y ==> cfg.round(x) <= cfg.round(y)
    requires forall k :: 0 <= k < 10 ==>
        Components(req, v, HealthOf(ev, v.id))[k] <= Components(req, w, HealthOf(ev, w.id))[k]
    ensures Score(cfg, req, ev, v) <= Score(cfg, req, ev, w)
  {
    DotIsMonotone(Components(req, v, HealthOf(ev, v.id)), Components(req, w, HealthOf(ev, w.id)), cfg.weights);
  }

  // Ranking

  function IdLe(): (Worker, Worker) -> bool { (a: Worker, b: Worker) => StringLe(a.id, b.id) }

  predicate ScoreLe(x: real, a: string, y: real, b: string) { x > y || (x == y && StringLe(a, b)) }

  function Scores(cfg: Config, req: Requirements, ev: Evidence, ws: seq<Worker>): (r: seq<Scored>)
    ensures |r| == |ws|
    ensures forall k :: 0 <= k < |ws| ==> r[k] == Scored(ws[k].id, Score(cfg, req, ev, ws[k]))
  {
    seq(|ws|, k requires 0 <= k < |ws| => Scored(ws[k].id, Score(cfg, req, ev, ws[k])))
  }

  /** The dictionary of scores by worker: of two equal ids, the later wins. */
  function ScoreMap(scores: seq<Scored>): map<string, real> {
    if scores == [] then map[]
    else ScoreMap(scores[..|scores| - 1])[scores[|scores| - 1].workerId := scores[|scores| - 1].score]
  }

  function Lookup(m: map<string, real>, id: string): real { if id in m then m[id] else 0.0 }

  function RankLe(m: map<string, real>): (Worker, Worker) -> bool {
    (a: Worker, b: Worker) => ScoreLe(Lookup(m, a.id), a.id, Lookup(m, b.id), b.id)
  }

  function Listed(s: seq<string>): set<string> { if s == [] then {} else Listed(s[..|s| - 1]) + {s[|s| - 1]} }

  /** The dictionary of preferences: of two equal ids, the later index wins. */
  function PreferredRank(preferred: seq<string>): (r: map<string, nat>)
    ensures r.Keys == Listed(preferred)
    ensures forall id :: id in r ==> r[id] < |preferred| && preferred[r[id]] == id
  {
    if preferred == [] then map[]
    else
      var n := |preferred| - 1;
      PreferredRank(preferred[..n])[preferred[n] := n]
  }

  function RankOf(preferred: seq<string>, id: string): nat {
    var r := PreferredRank(preferred);
    if id in r then r[id] else |r|
  }

  function FallbackLe(preferred: seq<string>, m: map<string, real>): (Worker, Worker) -> bool {
    (a: Worker, b: Worker) =>
      RankOf(preferred, a.id) < RankOf(preferred, b.id)
      || (RankOf(preferred, a.id) == RankOf(preferred, b.id) && ScoreLe(Lookup(m, a.id), a.id, Lookup(m, b.id), b.id))
  }

  function CheapLe(m: map<string, real>): (Worker, Worker) -> bool {
    (a: Worker, b: Worker) =>
      a.cost > b.cost || (a.cost == b.cost && ScoreLe(Lookup(m, a.id), a.id, Lookup(m, b.id), b.id))
  }

  function ScoredLe(): (Scored, Scored) -> bool {
    (a: Scored, b: Scored) => ScoreLe(a.score, a.workerId, b.score, b.workerId)
  }

  // Selection

  /** The slice s[:n] of _select, for any n, negative ones included. */
  function Prefix<T>(s: seq<T>, n: int): seq<T> {
    if n >= |s| then s else if n >= 0 then s[..n] else if |s| + n >= 0 then s[..|s| + n] else []
  }

  function Ids(ws: seq<Worker>): (r: seq<string>)
    ensures |r| == |ws| && forall k :: 0 <= k < |ws| ==> r[k] == ws[k].id
  {
    seq(|ws|, k requires 0 <= k < |ws| => ws[k].id)
  }

  predicate Reviews(w: Worker, primary: string) { w.id != primary && "review" in w.capabilities }

  function FirstReviewer(ws: seq<Worker>, primary: string): Option<Worker> {
    if ws == [] then None else if Reviews(ws[0], primary) then Some(ws[0]) else FirstReviewer(ws[1..], primary)
  }

  function Select(topology: Topology, req: Requirements, ranked: seq<Worker>, m: map<string, real>): seq<string> {
    if ranked == [] then []
    else
      match topology
      case Single => [ranked[0].id]
      case Fallback => Ids(Prefix(Sort(ranked, FallbackLe(req.preferred, m)), 1))
      case CheapFirst => Ids(Prefix(Sort(ranked, CheapLe(m)), 1))
      case PrimaryReviewer =>
        var reviewer := FirstReviewer(ranked, ranked[0].id);
        if reviewer.Some? then [ranked[0].id, reviewer.value.id] else [ranked[0].id]
      case ParallelPanel => Ids(Prefix(ranked, req.panelSize))
  }

  /** The topology's own rejection, which empties the selection. */
  function Shortage(topology: Topology, req: Requirements, selected: seq<string>): seq<Rejection> {
    if topology.PrimaryReviewer? && |selected| < 2 then [Rejection("__topology__", ReviewerUnavailable)]
    else if topology.ParallelPanel? && |selected| < req.panelSize then [Rejection("__topology__", PanelSizeUnavailable)]
    else []
  }

  function Rejections(req: Requirements, ws: seq<Worker>): seq<Rejection> {
    if ws == [] then [] else Rejections(req, ws[..|ws| - 1]) + HardConstraints(req, ws[|ws| - 1])
  }

  function Eligible(req: Requirements, ws: seq<Worker>): seq<Worker> {
    Filter(Sort(ws, IdLe()), (w: Worker) => Meets(req, w))
  }

  /** The whole decision. */
  function Decide(cfg: Config, req: Requirements, topology: Topology, ws: seq<Worker>, ev: Evidence): Decision {
    var eligible := Eligible(req, ws);
    var scores := Scores(cfg, req, ev, eligible);
    var m := ScoreMap(scores);
    var selected := Select(topology, req, Sort(eligible, RankLe(m)), m);
    var shortage := Shortage(topology, req, selected);
    Decision(if shortage == [] then selected else [], Sort(scores, ScoredLe()),
             Rejections(req, Sort(ws, IdLe())) + shortage)
  }

  datatype Report = Report(workerId: string, health: real)
  datatype Outcome = Decided(decision: Decision) | DuplicateEvidence | ZeroWeights

  predicate UniqueReports(reports: seq<Report>) {
    forall j, k :: 0 <= j < k < |reports| ==> reports[j].workerId != reports[k].workerId
  }

  predicate Reported(reports: seq<Report>, ev: Evidence) {
    && (forall k :: 0 <= k < |reports| ==> reports[k].workerId in ev && ev[reports[k].workerId] == reports[k].health)
    && (forall id :: id in ev ==> exists k :: 0 <= k < |reports| && reports[k].workerId == id)
  }

  /** Evidence must be unique by worker; the dictionary then holds exactly what was reported. */
  method ResourceEvidence(reports: seq<Report>) returns (ev: Option<Evidence>)
    ensures ev.Some? <==> UniqueReports(reports)
    ensures ev.Some? ==> Reported(reports, ev.value)
  {
    var result: Evidence := map[];
    for k := 0 to |reports|
      invariant forall i, j :: 0 <= i < j < k ==> reports[i].workerId != reports[j].workerId
      invariant forall j :: 0 <= j < k ==>
        reports[j].workerId in result && result[reports[j].workerId] == reports[j].health
      invariant forall id :: id in result ==> exists j :: 0 <= j < k && reports[j].workerId == id
    {
      if reports[k].workerId in result { return None; }
      result := result[reports[k].workerId := reports[k].health];
    }
    return Some(result);
  }

  method Screen(req: Requirements, ws: seq<Worker>) returns (eligible: seq<Worker>, rejected: seq<Rejection>)
    ensures eligible == Filter(ws, (w: Worker) => Meets(req, w))
    ensures rejected == Rejections(req, ws)
  {
    eligible, rejected := [], [];
    for k := 0 to |ws|
      invariant eligible == Filter(ws[..k], (w: Worker) => Meets(req, w))
      invariant rejected == Rejections(req, ws[..k])
    {
      assert ws[..k + 1][..k] == ws[..k];
      var reasons := HardConstraints(req, ws[k]);
      if reasons != [] {
        rejected := rejected + reasons;
      } else {
        eligible := eligible + [ws[k]];
      }
    }
    assert ws[..|ws|] == ws;
  }

  /** schedule: duplicate evidence raises before anything else, and so do weights that sum to zero as
      soon as there is somebody to score. */
  method Schedule(cfg: Config, req: Requirements, topology: Topology, ws: seq<Worker>, reports: seq<Report>)
    returns (outcome: Outcome, ghost ev: Evidence)
    ensures outcome.DuplicateEvidence? <==> !UniqueReports(reports)
    ensures outcome.ZeroWeights? <==> UniqueReports(reports) && Eligible(req, ws) != [] && Sum(cfg.weights) == 0.0
    ensures outcome.Decided? ==> Reported(reports, ev) && outcome.decision == Decide(cfg, req, topology, ws, ev)
  {
    ev := map[];
    var evidence := ResourceEvidence(reports);
    if evidence.None? { return DuplicateEvidence, ev; }
    ev := evidence.value;
    var sorted := Sort(ws, IdLe());
    var eligible, rejected := Screen(req, sorted);
    if eligible != [] && Sum(cfg.weights) == 0.0 { return ZeroWeights, ev; }
    var scores := Scores(cfg, req, evidence.value, eligible);
    var scoreById := ScoreMap(scores);
    var ranked := Sort(eligible, RankLe(scoreById));
    var selected := Select(topology, req, ranked, scoreById);
    var shortage := Shortage(topology, req, selected);
    if shortage != [] {
      rejected := rejected + shortage;
      selected := [];
    }
    return Decided(Decision(selected, Sort(scores, ScoredLe()), rejected)), ev;
  }
}
