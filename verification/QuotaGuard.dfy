/**
 The quota guard that runs before scheduling (src/project_supervisor/resource_usage.py): what is known
 of a worker's quota pool, who is avoided because of it, and in which order the others are listed.
 */
module QuotaGuard {
  import opened Options
  import opened Ordering

  datatype QuotaState = Available | Warning | Critical | Exhausted | Unknown
  datatype Freshness = Fresh | Stale | FreshnessUnknown
  datatype Provenance = ProviderReported | LocallyMeasured | Inferred | ProvenanceUnknown
  datatype Confidence = Exact | Verified | Reported | Guessed | ConfidenceUnknown

  datatype Candidate = Candidate(workerId: string, pool: string, capable: bool, premium: bool, provider: Option<string>)
  datatype Observation = Observation(provider: string, quota: QuotaState, provenance: Provenance,
      confidence: Confidence, freshUntil: Option<int>)
  datatype Doubt = NoSnapshot | ProviderMismatch | StaleSnapshot | UndatedSnapshot | StateUnknown | OriginUnknown
                 | UntrustedSource | RequirementsNotMet
  datatype Finding = Finding(state: QuotaState, freshness: Freshness, provenance: Provenance, doubt: Option<Doubt>)

  function FreshnessAt(o: Observation, now: int): Freshness {
    if o.freshUntil.None? then FreshnessUnknown else if now <= o.freshUntil.value then Fresh else Stale
  }

  /** Why an observation may not be taken at its word. */
  function DoubtAbout(c: Candidate, o: Observation, now: int): Option<Doubt> {
    if c.provider.Some? && c.provider.value != o.provider then Some(ProviderMismatch)
    else if FreshnessAt(o, now).Stale? then Some(StaleSnapshot)
    else if FreshnessAt(o, now).FreshnessUnknown? then Some(UndatedSnapshot)
    else if o.quota.Unknown? then Some(StateUnknown)
    else if o.provenance.ProvenanceUnknown? then Some(OriginUnknown)
    else if o.confidence.ConfidenceUnknown? then Some(UntrustedSource)
    else None
  }

  function EffectiveEvidence(c: Candidate, snapshot: Option<Observation>, now: int): Finding {
    if snapshot.None? then Finding(Unknown, FreshnessUnknown, ProvenanceUnknown, Some(NoSnapshot))
    else
      var o := snapshot.value;
      var doubt := DoubtAbout(c, o, now);
      Finding(if doubt.Some? then Unknown else o.quota, FreshnessAt(o, now), o.provenance, doubt)
  }

  /** An observation in date, of the candidate's provider, with a known state, origin and confidence. */
  predicate Trusted(c: Candidate, o: Observation, now: int) {
    && (c.provider.None? || c.provider.value == o.provider)
    && o.freshUntil.Some? && now <= o.freshUntil.value
    && !o.quota.Unknown? && !o.provenance.ProvenanceUnknown? && !o.confidence.ConfidenceUnknown?
  }

  /** A quota state counts exactly if a trusted observation reports it; nothing unknown is ever taken
      for available or for exhausted, and the state is unknown exactly if a doubt is named. */
  lemma EvidenceIsTrusted(c: Candidate, snapshot: Option<Observation>, now: int, q: QuotaState)
    requires !q.Unknown?
    ensures EffectiveEvidence(c, snapshot, now).state == q <==>
      snapshot.Some? && Trusted(c, snapshot.value, now) && snapshot.value.quota == q
    ensures EffectiveEvidence(c, snapshot, now).state.Unknown? <==> EffectiveEvidence(c, snapshot, now).doubt.Some?
  {
    if snapshot.Some? {
      var o := snapshot.value;
      assert DoubtAbout(c, o, now).None? <==> Trusted(c, o, now);
    }
  }

  function Base(q: QuotaState): real {
    match q
    case Available => 1.0
    case Warning => 0.55
    case Critical => 0.15
    case Exhausted => 0.0
    case Unknown => 0.25
  }

  function Weight(p: Provenance): real {
    match p
    case ProviderReported => 1.0
    case LocallyMeasured => 0.95
    case Inferred => 0.8
    case ProvenanceUnknown => 0.0
  }

  /** The products have at most four decimals, so rounding to six changes none of them. */
  function HealthScore(f: Finding): (r: real)
    ensures 0.0 <= r <= 1.0
  {
    if f.state.Unknown? then 0.25 else Base(f.state) * Weight(f.provenance)
  }

  // The guard

  datatype Avoidance = RequirementsUnmet | ExhaustedAlternative | PremiumCritical | PremiumWarning | AllExhausted
  datatype Verdict = Verdict(ordered: seq<string>, avoided: map<string, Avoidance>, evidence: map<string, Finding>)

  type Ledger = map<string, Observation>

  function Latest(ledger: Ledger, pool: string): Option<Observation> {
    if pool in ledger then Some(ledger[pool]) else None
  }

  function FindingOf(ledger: Ledger, now: int, c: Candidate): Finding {
    EffectiveEvidence(c, Latest(ledger, c.pool), now)
  }

  /** The evidence on the capable candidates by worker: of two equal ids, the later wins. */
  function Findings(ledger: Ledger, now: int, cs: seq<Candidate>): map<string, Finding> {
    if cs == [] then map[]
    else Findings(ledger, now, cs[..|cs| - 1])[cs[|cs| - 1].workerId := FindingOf(ledger, now, cs[|cs| - 1])]
  }

  function IdSet(cs: seq<Candidate>): set<string> { set k | 0 <= k < |cs| :: cs[k].workerId }

  /** The evidence on every candidate; nothing is known of those that were not even looked at. */
  function Evidence(found: map<string, Finding>, cs: seq<Candidate>): map<string, Finding> {
    map id | id in IdSet(cs) ::
      if id in found then found[id] else Finding(Unknown, FreshnessUnknown, ProvenanceUnknown, Some(RequirementsNotMet))
  }

  function StateOf(found: map<string, Finding>, id: string): QuotaState {
    if id in found then found[id].state else Unknown
  }

  function Capable(cs: seq<Candidate>): seq<Candidate> { Filter(cs, (c: Candidate) => c.capable) }

  predicate AnyState(found: map<string, Finding>, cs: seq<Candidate>, p: QuotaState -> bool) {
    exists k :: 0 <= k < |cs| && p(StateOf(found, cs[k].workerId))
  }

  predicate BetterElsewhere(found: map<string, Finding>, cs: seq<Candidate>, c: Candidate) {
    exists k :: 0 <= k < |cs| && cs[k].workerId != c.workerId && !StateOf(found, cs[k].workerId).Critical?
        && !StateOf(found, cs[k].workerId).Exhausted?
  }

  /** Why a capable candidate is avoided, if it is. */
  function AvoidanceOf(found: map<string, Finding>, cs: seq<Candidate>, c: Candidate): Option<Avoidance> {
    var state := StateOf(found, c.workerId);
    var alternative := AnyState(found, cs, (q: QuotaState) => !q.Exhausted?);
    if state.Exhausted? && alternative then Some(ExhaustedAlternative)
    else if state.Critical? && c.premium && BetterElsewhere(found, cs, c) then Some(PremiumCritical)
    else if state.Warning? && c.premium && AnyState(found, cs, (q: QuotaState) => q.Available?)
    then Some(PremiumWarning)
    else if state.Exhausted? then Some(AllExhausted)
    else None
  }

  function Rank(q: QuotaState): nat {
    match q
    case Available => 0
    case Warning => 1
    case Unknown => 2
    case Critical => 3
    case Exhausted => 4
  }

  function Health(found: map<string, Finding>, id: string): real { if id in found then HealthScore(found[id]) else 0.0 }

  function GuardLe(found: map<string, Finding>): (Candidate, Candidate) -> bool {
    (a: Candidate, b: Candidate) =>
      var r, s := Rank(StateOf(found, a.workerId)), Rank(StateOf(found, b.workerId));
      var x, y := Health(found, a.workerId), Health(found, b.workerId);
      r < s || (r == s && (x > y || (x == y && StringLe(a.workerId, b.workerId))))
  }

  function WorkerIds(cs: seq<Candidate>): (r: seq<string>)
    ensures |r| == |cs| && forall k :: 0 <= k < |cs| ==> r[k] == cs[k].workerId
  {
    seq(|cs|, k requires 0 <= k < |cs| => cs[k].workerId)
  }

  function Allowed(found: map<string, Finding>, cs: seq<Candidate>): seq<Candidate> {
    Filter(cs, (c: Candidate) => AvoidanceOf(found, cs, c).None?)
  }

  /** The candidates avoided for lack of capability, and then those avoided for their quota. */
  function Unfit(cs: seq<Candidate>): map<string, Avoidance> {
    if cs == [] then map[]
    else if cs[|cs| - 1].capable then Unfit(cs[..|cs| - 1])
    else Unfit(cs[..|cs| - 1])[cs[|cs| - 1].workerId := RequirementsUnmet]
  }

  function Avoided(
      found: map<string, Finding>, all: seq<Candidate>, cs: seq<Candidate>, start: map<string, Avoidance>)
      : map<string, Avoidance>
    decreases |cs|
  {
    if cs == [] then start
    else
      var before := Avoided(found, all, cs[..|cs| - 1], start);
      var why := AvoidanceOf(found, all, cs[|cs| - 1]);
      if why.None? then before else before[cs[|cs| - 1].workerId := why.value]
  }

  /** The verdict as a function of the candidates and the ledger. */
  function Verdicts(ledger: Ledger, now: int, cs: seq<Candidate>): Verdict {
    var capable := Capable(cs);
    var found := Findings(ledger, now, capable);
    Verdict(WorkerIds(Sort(Allowed(found, capable), GuardLe(found))),
            Avoided(found, capable, capable, Unfit(cs)),
            Evidence(found, cs))
  }

  /** evaluate. */
  method Evaluate(ledger: Ledger, now: int, cs: seq<Candidate>) returns (v: Verdict)
    ensures v == Verdicts(ledger, now, cs)
  {
    var capable := Capable(cs);
    var found := Findings(ledger, now, capable);
    var avoided := Unfit(cs);
    var allowed: seq<Candidate> := [];
    for k := 0 to |capable|
      invariant allowed == Filter(capable[..k], (c: Candidate) => AvoidanceOf(found, capable, c).None?)
      invariant avoided == Avoided(found, capable, capable[..k], Unfit(cs))
    {
      assert capable[..k + 1][..k] == capable[..k];
      var why := AvoidanceOf(found, capable, capable[k]);
      if why.Some? {
        avoided := avoided[capable[k].workerId := why.value];
      } else {
        allowed := allowed + [capable[k]];
      }
    }
    assert capable[..|capable|] == capable;
    v := Verdict(WorkerIds(Sort(allowed, GuardLe(found))), avoided, Evidence(found, cs));
  }

  // What the guard promises

  predicate DistinctCandidates(cs: seq<Candidate>) {
    forall i, j :: 0 <= i < j < |cs| ==> cs[i].workerId != cs[j].workerId
  }

  lemma CapableExactly(cs: seq<Candidate>, c: Candidate)
    ensures c in Capable(cs) <==> c in cs && c.capable
  {
    FilterKeeps(cs, (d: Candidate) => d.capable, c);
  }

  lemma SameIdSameCandidate(cs: seq<Candidate>, a: Candidate, b: Candidate)
    requires DistinctCandidates(cs) && a in cs && b in cs && a.workerId == b.workerId
    ensures a == b
  {
    var i :| 0 <= i < |cs| && cs[i] == a;
    var j :| 0 <= j < |cs| && cs[j] == b;
    assert i == j;
  }

  lemma {:induction false} FindingsExactly(ledger: Ledger, now: int, cs: seq<Candidate>, id: string)
    ensures id in Findings(ledger, now, cs) <==> exists k :: 0 <= k < |cs| && cs[k].workerId == id
    ensures id in Findings(ledger, now, cs) ==>
      exists k :: 0 <= k < |cs| && cs[k].workerId == id
          && Findings(ledger, now, cs)[id] == FindingOf(ledger, now, cs[k])
  {
    if cs != [] {
      var n := |cs| - 1;
      FindingsExactly(ledger, now, cs[..n], id);
      assert forall k :: 0 <= k < n ==> cs[..n][k] == cs[k];
      assert cs[n].workerId == id ==> Findings(ledger, now, cs)[id] == FindingOf(ledger, now, cs[n]);
    }
  }

  /** With distinct ids, the evidence used for a capable candidate is the candidate's own. */
  lemma OwnFinding(ledger: Ledger, now: int, cs: seq<Candidate>, c: Candidate)
    requires DistinctCandidates(cs) && c in cs && c.capable
    ensures c.workerId in Findings(ledger, now, Capable(cs))
    ensures Findings(ledger, now, Capable(cs))[c.workerId] == FindingOf(ledger, now, c)
  {
    var capable := Capable(cs);
    CapableExactly(cs, c);
    FindingsExactly(ledger, now, capable, c.workerId);
    var k :| 0 <= k < |capable| && capable[k].workerId == c.workerId
             && Findings(ledger, now, capable)[c.workerId] == FindingOf(ledger, now, capable[k]);
    CapableExactly(cs, capable[k]);
    SameIdSameCandidate(cs, capable[k], c);
  }

  /** Some capable candidate has a pool that is not known to be exhausted. */
  predicate SomePoolLeft(found: map<string, Finding>, cs: seq<Candidate>) {
    exists k :: 0 <= k < |cs| && !StateOf(found, cs[k].workerId).Exhausted?
  }

  /** Of several candidates the guard never avoids all, unless every pool is exhausted: a premium pool
      that runs low is only avoided for one that is better off. */
  lemma GuardLeavesSomebody(found: map<string, Finding>, cs: seq<Candidate>)
    ensures (exists c :: c in cs && AvoidanceOf(found, cs, c).None?) <==> SomePoolLeft(found, cs)
  {
    if SomePoolLeft(found, cs) {
      var k :| 0 <= k < |cs| && !StateOf(found, cs[k].workerId).Exhausted?;
      var c := BestPlaced(found, cs, k);
      assert AvoidanceOf(found, cs, c).None?;
    }
  }

  /** The candidate to show: an available one, else one whose state is unknown, else one that is warned,
      else a critical one. */
  lemma BestPlaced(found: map<string, Finding>, cs: seq<Candidate>, k: nat) returns (c: Candidate)
    requires k < |cs| && !StateOf(found, cs[k].workerId).Exhausted?
    ensures c in cs && AvoidanceOf(found, cs, c).None?
  {
    if i :| 0 <= i < |cs| && StateOf(found, cs[i].workerId).Available? {
      c := cs[i];
    } else if i :| 0 <= i < |cs| && StateOf(found, cs[i].workerId).Unknown? {
      c := cs[i];
    } else if i :| 0 <= i < |cs| && StateOf(found, cs[i].workerId).Warning? {
      c := cs[i];
    } else {
      c := cs[k];
    }
  }

  lemma AllowedExactly(found: map<string, Finding>, cs: seq<Candidate>, id: string)
    ensures id in WorkerIds(Sort(Allowed(found, cs), GuardLe(found))) <==>
      exists c :: c in cs && c.workerId == id && AvoidanceOf(found, cs, c).None?
  {
    var allowed, sorted := Allowed(found, cs), Sort(Allowed(found, cs), GuardLe(found));
    GuardLeIsOrder(found);
    SortSorts(allowed, GuardLe(found));
    if id in WorkerIds(sorted) {
      var k :| 0 <= k < |sorted| && sorted[k].workerId == id;
      SameElements(sorted, allowed, sorted[k]);
      FilterKeeps(cs, (c: Candidate) => AvoidanceOf(found, cs, c).None?, sorted[k]);
    }
    if c :| c in cs && c.workerId == id && AvoidanceOf(found, cs, c).None? {
      FilterKeeps(cs, (d: Candidate) => AvoidanceOf(found, cs, d).None?, c);
      SameElements(sorted, allowed, c);
      var k :| 0 <= k < |sorted| && sorted[k] == c;
      assert WorkerIds(sorted)[k] == id;
    }
  }

  lemma GuardLeIsOrder(found: map<string, Finding>)
    ensures Order(GuardLe(found))
  {
    var le := GuardLe(found);
    forall a: Candidate, b: Candidate, c: Candidate
      ensures le(a, b) || le(b, a)
      ensures le(a, b) && le(b, c) ==> le(a, c)
    {
      StringLeTotal(a.workerId, b.workerId);
      if StringLe(a.workerId, b.workerId) && StringLe(b.workerId, c.workerId) {
        StringLeTransitive(a.workerId, b.workerId, c.workerId);
      }
    }
  }
}
