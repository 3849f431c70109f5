/**
 The quota guard decides about each candidate by itself and the set of the others: the verdict, entry
 by entry, and its independence of the order of the candidates.
 */
module QuotaGuardTheorems {
  import opened Options
  import opened Ordering
  import opened QuotaGuard

  /** What the guard holds against one candidate. */
  function Objection(ledger: Ledger, now: int, cs: seq<Candidate>, c: Candidate): Option<Avoidance> {
    if !c.capable then Some(RequirementsUnmet)
    else AvoidanceOf(Findings(ledger, now, Capable(cs)), Capable(cs), c)
  }

  lemma {:induction false} UnfitExactly(cs: seq<Candidate>, id: string)
    ensures id in Unfit(cs) <==> exists k :: 0 <= k < |cs| && cs[k].workerId == id && !cs[k].capable
    ensures id in Unfit(cs) ==> Unfit(cs)[id] == RequirementsUnmet
  {
    if cs != [] {
      var n := |cs| - 1;
      UnfitExactly(cs[..n], id);
      assert forall k :: 0 <= k < n ==> cs[..n][k] == cs[k];
    }
  }

  predicate Objected(found: map<string, Finding>, all: seq<Candidate>, c: Candidate, id: string) {
    c.workerId == id && AvoidanceOf(found, all, c).Some?
  }

  lemma {:induction false} AvoidedExactly(
      found: map<string, Finding>, all: seq<Candidate>, cs: seq<Candidate>, start: map<string, Avoidance>,
      id: string)
    ensures var r := Avoided(found, all, cs, start);
            && (id in r <==> id in start || exists k :: 0 <= k < |cs| && Objected(found, all, cs[k], id))
            && (id in r ==> (id in start && r[id] == start[id]) ||
                            exists k :: 0 <= k < |cs| && Objected(found, all, cs[k], id)
                                && Some(r[id]) == AvoidanceOf(found, all, cs[k]))
            && ((exists k :: 0 <= k < |cs| && Objected(found, all, cs[k], id)) ==>
                  exists k :: 0 <= k < |cs| && Objected(found, all, cs[k], id)
                      && Some(r[id]) == AvoidanceOf(found, all, cs[k]))
    decreases |cs|
  {
    if cs != [] {
      var n := |cs| - 1;
      AvoidedExactly(found, all, cs[..n], start, id);
      assert forall k :: 0 <= k < n ==> cs[..n][k] == cs[k];
      var r := Avoided(found, all, cs, start);
      assert Objected(found, all, cs[n], id) ==> Some(r[id]) == AvoidanceOf(found, all, cs[n]);
    }
  }

  /** With distinct ids, the entry of a candidate is the objection to that candidate, if there is one. */
  lemma AvoidedForCause(ledger: Ledger, now: int, cs: seq<Candidate>, c: Candidate)
    requires DistinctCandidates(cs) && c in cs
    ensures var v := Verdicts(ledger, now, cs);
            && (c.workerId in v.avoided <==> Objection(ledger, now, cs, c).Some?)
            && (c.workerId in v.avoided ==> Some(v.avoided[c.workerId]) == Objection(ledger, now, cs, c))
  {
    var capable := Capable(cs);
    var found := Findings(ledger, now, capable);
    UnfitExactly(cs, c.workerId);
    AvoidedExactly(found, capable, capable, Unfit(cs), c.workerId);
    CapableExactly(cs, c);
    forall k | 0 <= k < |capable| && capable[k].workerId == c.workerId
      ensures capable[k] == c && c.capable
    {
      CapableExactly(cs, capable[k]);
      SameIdSameCandidate(cs, capable[k], c);
    }
    if c.capable {
      var i :| 0 <= i < |capable| && capable[i] == c;
      assert Objected(found, capable, capable[i], c.workerId) <==> AvoidanceOf(found, capable, c).Some?;
    }
    forall k | 0 <= k < |cs| && cs[k].workerId == c.workerId
      ensures cs[k] == c
    {
      SameIdSameCandidate(cs, cs[k], c);
    }
  }

  /** With distinct ids, a candidate is listed exactly if there is no objection to it. */
  lemma ListedExactly(ledger: Ledger, now: int, cs: seq<Candidate>, c: Candidate)
    requires DistinctCandidates(cs) && c in cs
    ensures c.workerId in Verdicts(ledger, now, cs).ordered <==> Objection(ledger, now, cs, c).None?
  {
    var capable := Capable(cs);
    var found := Findings(ledger, now, capable);
    AllowedExactly(found, capable, c.workerId);
    CapableExactly(cs, c);
    forall d | d in capable && d.workerId == c.workerId
      ensures d == c && c.capable
    {
      CapableExactly(cs, d);
      SameIdSameCandidate(cs, c, d);
    }
    var listed := WorkerIds(Sort(Allowed(found, capable), GuardLe(found)));
    assert Verdicts(ledger, now, cs).ordered == listed;
    assert c.workerId in listed <==> c.capable && AvoidanceOf(found, capable, c).None?;
  }

  /** The listing goes from available over warned and unknown to critical pools, and among equals from
      the healthier evidence to the weaker. */
  lemma ListedByRank(ledger: Ledger, now: int, cs: seq<Candidate>, i: nat, j: nat)
    requires i < j < |Verdicts(ledger, now, cs).ordered|
    ensures var found := Findings(ledger, now, Capable(cs));
            var a, b := Verdicts(ledger, now, cs).ordered[i], Verdicts(ledger, now, cs).ordered[j];
            && Rank(StateOf(found, a)) <= Rank(StateOf(found, b))
            && (StateOf(found, a) == StateOf(found, b) ==> Health(found, a) >= Health(found, b))
  {
    var found := Findings(ledger, now, Capable(cs));
    GuardLeIsOrder(found);
    SortSorts(Allowed(found, Capable(cs)), GuardLe(found));
    var sorted := Sort(Allowed(found, Capable(cs)), GuardLe(found));
    assert GuardLe(found)(sorted[i], sorted[j]);
  }

  /** Nobody listed is incapable or has an exhausted pool. */
  lemma NobodyListedIsExhausted(ledger: Ledger, now: int, cs: seq<Candidate>, c: Candidate)
    requires DistinctCandidates(cs) && c in cs && c.workerId in Verdicts(ledger, now, cs).ordered
    ensures c.capable && !FindingOf(ledger, now, c).state.Exhausted?
  {
    ListedExactly(ledger, now, cs, c);
    OwnFinding(ledger, now, cs, c);
  }

  /** Somebody is listed as soon as one capable candidate's pool is not known to be exhausted. */
  lemma SomebodyIsListed(ledger: Ledger, now: int, cs: seq<Candidate>, c: Candidate) returns (d: Candidate)
    requires DistinctCandidates(cs) && c in cs && c.capable && !FindingOf(ledger, now, c).state.Exhausted?
    ensures d in cs && d.workerId in Verdicts(ledger, now, cs).ordered
  {
    var capable := Capable(cs);
    var found := Findings(ledger, now, capable);
    OwnFinding(ledger, now, cs, c);
    CapableExactly(cs, c);
    var i :| 0 <= i < |capable| && capable[i] == c;
    assert SomePoolLeft(found, capable);
    GuardLeavesSomebody(found, capable);
    d :| d in capable && AvoidanceOf(found, capable, d).None?;
    CapableExactly(cs, d);
    ListedExactly(ledger, now, cs, d);
  }

  // More capable candidates

  /** Every capable candidate among cs is one among ds too. */
  predicate MoreCapable(cs: seq<Candidate>, ds: seq<Candidate>) {
    forall k :: 0 <= k < |cs| && cs[k].capable ==> cs[k] in ds
  }

  /** With distinct ids, the state used for a capable candidate is that of its own finding. */
  lemma OwnState(ledger: Ledger, now: int, cs: seq<Candidate>, c: Candidate)
    requires DistinctCandidates(cs) && c in cs && c.capable
    ensures StateOf(Findings(ledger, now, Capable(cs)), c.workerId) == FindingOf(ledger, now, c).state
  {
    OwnFinding(ledger, now, cs, c);
  }

  /** A capable candidate with a certain kind of pool, other than c, is there among ds too. */
  lemma WitnessCarriesOver(ledger: Ledger, now: int, cs: seq<Candidate>, ds: seq<Candidate>, k: nat) returns (i: nat)
    requires DistinctCandidates(cs) && DistinctCandidates(ds) && MoreCapable(cs, ds) && k < |Capable(cs)|
    ensures i < |Capable(ds)| && Capable(ds)[i] == Capable(cs)[k]
    ensures StateOf(Findings(ledger, now, Capable(ds)), Capable(cs)[k].workerId)
         == StateOf(Findings(ledger, now, Capable(cs)), Capable(cs)[k].workerId)
  {
    var c := Capable(cs)[k];
    CapableExactly(cs, c);
    var j :| 0 <= j < |cs| && cs[j] == c;
    CapableExactly(ds, c);
    i :| 0 <= i < |Capable(ds)| && Capable(ds)[i] == c;
    OwnState(ledger, now, cs, c);
    OwnState(ledger, now, ds, c);
  }

  /** Avoidance is monotone: whoever is avoided among fewer capable candidates is avoided among more. */
  lemma AvoidanceIsMonotone(ledger: Ledger, now: int, cs: seq<Candidate>, ds: seq<Candidate>, c: Candidate)
    requires DistinctCandidates(cs) && DistinctCandidates(ds) && MoreCapable(cs, ds) && c in cs && c.capable
    requires Objection(ledger, now, cs, c).Some?
    ensures Objection(ledger, now, ds, c).Some?
  {
    var f, g := Findings(ledger, now, Capable(cs)), Findings(ledger, now, Capable(ds));
    CapableExactly(cs, c);
    var own :| 0 <= own < |Capable(cs)| && Capable(cs)[own] == c;
    var _ := WitnessCarriesOver(ledger, now, cs, ds, own);
    if StateOf(f, c.workerId).Critical? {
      var k :| 0 <= k < |Capable(cs)| && Capable(cs)[k].workerId != c.workerId
               && !StateOf(f, Capable(cs)[k].workerId).Critical? && !StateOf(f, Capable(cs)[k].workerId).Exhausted?;
      var i := WitnessCarriesOver(ledger, now, cs, ds, k);
      assert BetterElsewhere(g, Capable(ds), c);
    } else if StateOf(f, c.workerId).Warning? {
      var k :| 0 <= k < |Capable(cs)| && StateOf(f, Capable(cs)[k].workerId).Available?;
      var i := WitnessCarriesOver(ledger, now, cs, ds, k);
      assert StateOf(g, Capable(ds)[i].workerId).Available?;
    }
  }

  // Health

  /** With distinct ids, the health reported for a candidate is that of its own evidence if it was
      capable, and that of an unknown pool if it was not. */
  lemma OwnHealth(ledger: Ledger, now: int, cs: seq<Candidate>, c: Candidate)
    requires DistinctCandidates(cs) && c in cs
    ensures Health(Verdicts(ledger, now, cs).evidence, c.workerId)
         == if c.capable then HealthScore(FindingOf(ledger, now, c)) else 0.25
  {
    var found := Findings(ledger, now, Capable(cs));
    var k :| 0 <= k < |cs| && cs[k] == c;
    assert c.workerId in IdSet(cs);
    if c.capable {
      OwnFinding(ledger, now, cs, c);
    } else {
      FindingsExactly(ledger, now, Capable(cs), c.workerId);
      forall i | 0 <= i < |Capable(cs)|
        ensures Capable(cs)[i].workerId != c.workerId
      {
        CapableExactly(cs, Capable(cs)[i]);
        if Capable(cs)[i].workerId == c.workerId {
          SameIdSameCandidate(cs, Capable(cs)[i], c);
        }
      }
    }
  }

  // Order independence

  lemma {:induction false} SameFilter<T>(s: seq<T>, p: T -> bool, q: T -> bool)
    requires forall k :: 0 <= k < |s| ==> p(s[k]) == q(s[k])
    ensures Filter(s, p) == Filter(s, q)
  {
    if s != [] {
      SameFilter(s[..|s| - 1], p, q);
    }
  }

  lemma CapableIsDistinct(cs: seq<Candidate>)
    requires DistinctCandidates(cs)
    ensures DistinctCandidates(Capable(cs))
  {
    FilterIsDistinct(cs, (c: Candidate) => c.capable);
  }

  lemma {:induction false} FilterIsDistinct(cs: seq<Candidate>, keep: Candidate -> bool)
    requires DistinctCandidates(cs)
    ensures DistinctCandidates(Filter(cs, keep))
  {
    if cs != [] {
      var n := |cs| - 1;
      FilterIsDistinct(cs[..n], keep);
      forall i | 0 <= i < |Filter(cs[..n], keep)|
        ensures Filter(cs[..n], keep)[i].workerId != cs[n].workerId
      {
        FilterKeeps(cs[..n], keep, Filter(cs[..n], keep)[i]);
      }
    }
  }

  /** The evidence does not depend on the order of distinct candidates. */
  lemma SameFindings(ledger: Ledger, now: int, cs: seq<Candidate>, ds: seq<Candidate>)
    requires DistinctCandidates(cs) && multiset(cs) == multiset(ds)
    ensures Findings(ledger, now, cs) == Findings(ledger, now, ds)
  {
    var f, g := Findings(ledger, now, cs), Findings(ledger, now, ds);
    forall id
      ensures (id in f <==> id in g) && (id in f ==> f[id] == g[id])
    {
      FindingsExactly(ledger, now, cs, id);
      FindingsExactly(ledger, now, ds, id);
      if id in f {
        var j :| 0 <= j < |cs| && cs[j].workerId == id && f[id] == FindingOf(ledger, now, cs[j]);
        SameElements(cs, ds, cs[j]);
        var i :| 0 <= i < |ds| && ds[i] == cs[j];
        assert id in g;
      }
      if id in g {
        var k :| 0 <= k < |ds| && ds[k].workerId == id && g[id] == FindingOf(ledger, now, ds[k]);
        SameElements(cs, ds, ds[k]);
        var i :| 0 <= i < |cs| && cs[i] == ds[k];
        assert id in f;
        var j :| 0 <= j < |cs| && cs[j].workerId == id && f[id] == FindingOf(ledger, now, cs[j]);
        SameIdSameCandidate(cs, cs[j], cs[i]);
      }
    }
    assert f.Keys == g.Keys;
  }

  lemma SameAvoidance(found: map<string, Finding>, cs: seq<Candidate>, ds: seq<Candidate>, c: Candidate)
    requires multiset(cs) == multiset(ds)
    ensures AvoidanceOf(found, cs, c) == AvoidanceOf(found, ds, c)
  {
    SameMembers(cs, ds);
    SameMembers(ds, cs);
  }

  lemma SameMembers(cs: seq<Candidate>, ds: seq<Candidate>)
    requires multiset(cs) == multiset(ds)
    ensures forall k :: 0 <= k < |cs| ==> cs[k] in ds
  {
    forall k | 0 <= k < |cs|
      ensures cs[k] in ds
    {
      SameElements(cs, ds, cs[k]);
    }
  }

  /** The whole verdict does not depend on the order in which distinct candidates are listed. */
  lemma GuardOrderIsIrrelevant(ledger: Ledger, now: int, cs: seq<Candidate>, ds: seq<Candidate>)
    requires DistinctCandidates(cs) && DistinctCandidates(ds) && multiset(cs) == multiset(ds)
    ensures Verdicts(ledger, now, cs) == Verdicts(ledger, now, ds)
  {
    var found, again := Findings(ledger, now, Capable(cs)), Findings(ledger, now, Capable(ds));
    assert found == again && Sort(Allowed(found, Capable(cs)), GuardLe(found)) ==
        Sort(Allowed(again, Capable(ds)), GuardLe(again)) by {
      FilterIgnoresOrder(cs, ds, (c: Candidate) => c.capable);
      CapableIsDistinct(cs);
      SameFindings(ledger, now, Capable(cs), Capable(ds));
      SameListing(found, Capable(cs), Capable(ds));
    }
    assert Evidence(found, cs) == Evidence(again, ds) by {
      SameIds(cs, ds);
    }
    SameEntries(ledger, now, cs, ds);
  }

  lemma SameIds(cs: seq<Candidate>, ds: seq<Candidate>)
    requires multiset(cs) == multiset(ds)
    ensures IdSet(cs) == IdSet(ds)
  {
    SameMembers(cs, ds);
    SameMembers(ds, cs);
  }

  lemma SameListing(found: map<string, Finding>, cs: seq<Candidate>, ds: seq<Candidate>)
    requires DistinctCandidates(cs) && multiset(cs) == multiset(ds)
    ensures Sort(Allowed(found, cs), GuardLe(found)) == Sort(Allowed(found, ds), GuardLe(found))
  {
    forall k | 0 <= k < |ds|
      ensures AvoidanceOf(found, cs, ds[k]) == AvoidanceOf(found, ds, ds[k])
    {
      SameAvoidance(found, cs, ds, ds[k]);
    }
    SameFilter(ds, (c: Candidate) => AvoidanceOf(found, cs, c).None?,
        (c: Candidate) => AvoidanceOf(found, ds, c).None?);
    FilterIgnoresOrder(cs, ds, (c: Candidate) => AvoidanceOf(found, cs, c).None?);
    GuardLeIsOrder(found);
    AllowedIsUntied(found, cs);
    SortIgnoresOrder(Allowed(found, cs), Allowed(found, ds), GuardLe(found));
  }

  lemma AllowedIsUntied(found: map<string, Finding>, cs: seq<Candidate>)
    requires DistinctCandidates(cs)
    ensures Untied(Allowed(found, cs), GuardLe(found))
  {
    var allowed, le := Allowed(found, cs), GuardLe(found);
    FilterIsDistinct(cs, (c: Candidate) => AvoidanceOf(found, cs, c).None?);
    forall a, b | a in allowed && b in allowed && le(a, b) && le(b, a)
      ensures a == b
    {
      StringLeTotal(a.workerId, b.workerId);
      SameIdSameCandidate(allowed, a, b);
    }
  }

  lemma AvoidedIsKnown(ledger: Ledger, now: int, cs: seq<Candidate>, id: string) returns (c: Candidate)
    requires id in Verdicts(ledger, now, cs).avoided
    ensures c in cs && c.workerId == id
  {
    var capable := Capable(cs);
    var found := Findings(ledger, now, capable);
    UnfitExactly(cs, id);
    AvoidedExactly(found, capable, capable, Unfit(cs), id);
    if k :| 0 <= k < |cs| && cs[k].workerId == id && !cs[k].capable {
      c := cs[k];
    } else {
      var k :| 0 <= k < |capable| && Objected(found, capable, capable[k], id);
      c := capable[k];
      CapableExactly(cs, c);
    }
  }

  lemma SameObjection(ledger: Ledger, now: int, cs: seq<Candidate>, ds: seq<Candidate>, c: Candidate)
    requires DistinctCandidates(cs) && multiset(cs) == multiset(ds)
    ensures Objection(ledger, now, cs, c) == Objection(ledger, now, ds, c)
  {
    FilterIgnoresOrder(cs, ds, (d: Candidate) => d.capable);
    CapableIsDistinct(cs);
    SameFindings(ledger, now, Capable(cs), Capable(ds));
    SameAvoidance(Findings(ledger, now, Capable(cs)), Capable(cs), Capable(ds), c);
  }

  lemma EntryCarriesOver(ledger: Ledger, now: int, cs: seq<Candidate>, ds: seq<Candidate>, id: string)
    requires DistinctCandidates(cs) && DistinctCandidates(ds) && multiset(cs) == multiset(ds)
    requires id in Verdicts(ledger, now, cs).avoided
    ensures id in Verdicts(ledger, now, ds).avoided
        && Verdicts(ledger, now, ds).avoided[id] == Verdicts(ledger, now, cs).avoided[id]
  {
    var c := AvoidedIsKnown(ledger, now, cs, id);
    SameElements(cs, ds, c);
    AvoidedForCause(ledger, now, cs, c);
    AvoidedForCause(ledger, now, ds, c);
    SameObjection(ledger, now, cs, ds, c);
  }

  lemma SameEntries(ledger: Ledger, now: int, cs: seq<Candidate>, ds: seq<Candidate>)
    requires DistinctCandidates(cs) && DistinctCandidates(ds) && multiset(cs) == multiset(ds)
    ensures Verdicts(ledger, now, cs).avoided == Verdicts(ledger, now, ds).avoided
  {
    var f, g := Verdicts(ledger, now, cs).avoided, Verdicts(ledger, now, ds).avoided;
    forall id | id in f
      ensures id in g && g[id] == f[id]
    {
      EntryCarriesOver(ledger, now, cs, ds, id);
    }
    forall id | id in g
      ensures id in f
    {
      EntryCarriesOver(ledger, now, ds, cs, id);
    }
  }
}
