/**
 The append-only, hash-chained audit log shared by all bootstrap runs (bootstrap/lifecycle.py).

 Every event of a run commits to the hash of that run's previous event. The hash functions are
 parameters: nothing is assumed of them except where injectivity is written as a hypothesis.
 */
module AuditChain {
  import opened Options

  type Digest = string

  datatype Kind = RunInitialized | StepNotNeeded | StepActionable | ResultRecorded

  datatype Payload =
    | Evidence(planDigest: Digest, profileDigest: Digest)
    | Planned(phase: string, action: string, capability: Option<string>)
    | Outcome(resultDigest: Digest, succeeded: bool, external: bool, grant: Option<string>)

  /** What a caller asks to be logged. */
  datatype Draft = Draft(
    runId: string, stepId: Option<string>, kind: Kind, actor: string, summary: string,
    payload: Payload, createdAt: int)

  datatype Event = Event(eventId: string, draft: Draft, previousHash: Digest, eventHash: Digest)

  /** chain hashes (previous hash, event id, body); eventId derives an id from body and previous hash. */
  datatype Hashes = Hashes(
    chain: (Digest, string, Draft) -> Digest,
    eventId: (Draft, Digest) -> string)

  function Genesis(): (z: Digest)
    ensures |z| == 64
  {
    seq(64, _ => '0')
  }

  /** The events of one run, in log order. */
  function Project(log: seq<Event>, runId: string): (events: seq<Event>)
    ensures forall k :: 0 <= k < |events| ==> events[k].draft.runId == runId
  {
    if log == [] then []
    else
      var rest := Project(log[..|log| - 1], runId);
      var last := log[|log| - 1];
      if last.draft.runId == runId then rest + [last] else rest
  }

  function LastHash(log: seq<Event>, runId: string): Digest {
    var events := Project(log, runId);
    if events == [] then Genesis() else events[|events| - 1].eventHash
  }

  function Append(h: Hashes, log: seq<Event>, draft: Draft): (r: seq<Event>)
    ensures |r| == |log| + 1 && log <= r
  {
    var previous := LastHash(log, draft.runId);
    var id := h.eventId(draft, previous);
    log + [Event(id, draft, previous, h.chain(previous, id, draft))]
  }

  // Verification

  function PreviousHash(events: seq<Event>, k: nat): Digest
    requires k <= |events|
  {
    if k == 0 then Genesis() else events[k - 1].eventHash
  }

  /** Event k points at its predecessor and carries the hash of its own body under this run. */
  predicate Linked(h: Hashes, runId: string, events: seq<Event>, k: nat)
    requires k < |events|
  {
    var previous := PreviousHash(events, k);
    && events[k].previousHash == previous
    && events[k].eventHash == h.chain(previous, events[k].eventId, events[k].draft.(runId := runId))
  }

  predicate Verifies(h: Hashes, runId: string, events: seq<Event>) {
    forall k :: 0 <= k < |events| ==> Linked(h, runId, events, k)
  }

  /** The verifier: recomputes the chain from the genesis value. */
  method VerifyProjection(h: Hashes, runId: string, events: seq<Event>) returns (ok: bool)
    ensures ok <==> Verifies(h, runId, events)
  {
    var previous := Genesis();
    for k := 0 to |events|
      invariant previous == PreviousHash(events, k)
      invariant forall j :: 0 <= j < k ==> Linked(h, runId, events, j)
    {
      var event := events[k];
      if event.previousHash != previous {
        assert !Linked(h, runId, events, k);
        return false;
      }
      var expected := h.chain(previous, event.eventId, event.draft.(runId := runId));
      if event.eventHash != expected {
        assert !Linked(h, runId, events, k);
        return false;
      }
      previous := expected;
    }
    return true;
  }

  lemma ProjectAppend(h: Hashes, log: seq<Event>, draft: Draft, runId: string)
    ensures draft.runId != runId ==> Project(Append(h, log, draft), runId) == Project(log, runId)
    ensures draft.runId == runId ==>
      Project(Append(h, log, draft), runId)
      == Project(log, runId) + [Append(h, log, draft)[|log|]]
  {
    assert Append(h, log, draft)[..|log|] == log;
  }

  /** Appending for any run keeps the chain of every run verifying. */
  lemma AppendVerifies(h: Hashes, log: seq<Event>, draft: Draft, runId: string)
    requires Verifies(h, runId, Project(log, runId))
    ensures Verifies(h, runId, Project(Append(h, log, draft), runId))
  {
    ProjectAppend(h, log, draft, runId);
    if draft.runId == runId {
      var events, after := Project(log, runId), Project(Append(h, log, draft), runId);
      assert draft.(runId := runId) == draft;
      forall k | 0 <= k < |after| ensures Linked(h, runId, after, k) {
        assert PreviousHash(after, k) == PreviousHash(events, k);
        if k < |events| {
          assert Linked(h, runId, events, k);
        }
      }
    }
  }

  // What an injective hash buys

  ghost predicate Injective(h: Hashes) {
    forall p, i, d, q, j, e {:trigger h.chain(p, i, d), h.chain(q, j, e)} ::
      h.chain(p, i, d) == h.chain(q, j, e) ==> p == q && i == j && d == e
  }

  ghost predicate NeverGenesis(h: Hashes) {
    forall p, i, d :: h.chain(p, i, d) != Genesis()
  }

  ghost predicate BelongsTo(events: seq<Event>, runId: string) {
    forall k :: 0 <= k < |events| ==> events[k].draft.runId == runId
  }

  lemma VerifiesPrefix(h: Hashes, runId: string, events: seq<Event>, n: nat)
    requires n <= |events| && Verifies(h, runId, events)
    ensures Verifies(h, runId, events[..n])
  {
    forall k | 0 <= k < n ensures Linked(h, runId, events[..n], k) {
      assert Linked(h, runId, events, k);
    }
  }

  /** Equal last hashes of two verified events force equal events and equal predecessors' hashes. */
  lemma LastEventsAgree(h: Hashes, runId: string, a: seq<Event>, b: seq<Event>)
    requires Injective(h)
    requires Verifies(h, runId, a) && Verifies(h, runId, b)
    requires BelongsTo(a, runId) && BelongsTo(b, runId)
    requires a != [] && b != [] && a[|a| - 1].eventHash == b[|b| - 1].eventHash
    ensures a[|a| - 1] == b[|b| - 1]
    ensures PreviousHash(a, |a| - 1) == PreviousHash(b, |b| - 1)
  {
    var x, y := a[|a| - 1], b[|b| - 1];
    assert Linked(h, runId, a, |a| - 1) && Linked(h, runId, b, |b| - 1);
    assert x.draft.(runId := runId) == x.draft && y.draft.(runId := runId) == y.draft;
    assert h.chain(PreviousHash(a, |a| - 1), x.eventId, x.draft)
        == h.chain(PreviousHash(b, |b| - 1), y.eventId, y.draft);
  }

  /** Two verifying chains of one run with equal length and equal last hash are the same chain. */
  lemma {:induction false} ChainsAgree(h: Hashes, runId: string, a: seq<Event>, b: seq<Event>)
    requires Injective(h)
    requires Verifies(h, runId, a) && Verifies(h, runId, b)
    requires BelongsTo(a, runId) && BelongsTo(b, runId)
    requires |a| == |b| && PreviousHash(a, |a|) == PreviousHash(b, |b|)
    ensures a == b
    decreases |a|
  {
    if a != [] {
      var n := |a| - 1;
      LastEventsAgree(h, runId, a, b);
      VerifiesPrefix(h, runId, a, n);
      VerifiesPrefix(h, runId, b, n);
      assert PreviousHash(a[..n], n) == PreviousHash(a, n) && PreviousHash(b[..n], n) == PreviousHash(b, n);
      ChainsAgree(h, runId, a[..n], b[..n]);
      assert a == a[..n] + [a[n]] && b == b[..n] + [b[n]];
    }
  }

  lemma LastIsNotGenesis(h: Hashes, runId: string, events: seq<Event>)
    requires NeverGenesis(h) && Verifies(h, runId, events)
    ensures PreviousHash(events, |events|) == Genesis() ==> events == []
  {
    if events != [] {
      assert Linked(h, runId, events, |events| - 1);
    }
  }

  /** If, moreover, no event hashes to the genesis value, the last hash alone fixes the whole chain,
      its length included: a truncated or extended history cannot keep its last hash. */
  lemma {:induction false} LastHashFixesHistory(h: Hashes, runId: string, a: seq<Event>, b: seq<Event>)
    requires Injective(h) && NeverGenesis(h)
    requires Verifies(h, runId, a) && Verifies(h, runId, b)
    requires BelongsTo(a, runId) && BelongsTo(b, runId)
    requires PreviousHash(a, |a|) == PreviousHash(b, |b|)
    ensures a == b
    decreases |a|
  {
    LastIsNotGenesis(h, runId, a);
    LastIsNotGenesis(h, runId, b);
    if a != [] && b != [] {
      var m, n := |a| - 1, |b| - 1;
      LastEventsAgree(h, runId, a, b);
      VerifiesPrefix(h, runId, a, m);
      VerifiesPrefix(h, runId, b, n);
      assert PreviousHash(a[..m], m) == PreviousHash(a, m) && PreviousHash(b[..n], n) == PreviousHash(b, n);
      LastHashFixesHistory(h, runId, a[..m], b[..n]);
      assert a == a[..m] + [a[m]] && b == b[..n] + [b[n]];
    }
  }

  lemma SameLastHash(h: Hashes, runId: string, log: seq<Event>, other: seq<Event>)
    requires Injective(h) && NeverGenesis(h)
    requires Verifies(h, runId, Project(log, runId)) && Verifies(h, runId, Project(other, runId))
    requires LastHash(log, runId) == LastHash(other, runId)
    ensures Project(log, runId) == Project(other, runId)
  {
    LastHashFixesHistory(h, runId, Project(log, runId), Project(other, runId));
  }

  /** No two events of a verifying chain share a hash, so the UNIQUE constraint on event hashes
      never refuses an append within a run. */
  lemma HashesAreDistinct(h: Hashes, runId: string, events: seq<Event>, i: nat, j: nat)
    requires Injective(h) && NeverGenesis(h)
    requires Verifies(h, runId, events) && BelongsTo(events, runId)
    requires i < j < |events|
    ensures events[i].eventHash != events[j].eventHash
  {
    if events[i].eventHash == events[j].eventHash {
      VerifiesPrefix(h, runId, events, i + 1);
      VerifiesPrefix(h, runId, events, j + 1);
      LastHashFixesHistory(h, runId, events[..i + 1], events[..j + 1]);
      assert false;
    }
  }

  /** Nor do events of different runs. */
  lemma RunsNeverShareHashes(
      h: Hashes, r: string, a: seq<Event>, i: nat, q: string, b: seq<Event>, j: nat)
    requires Injective(h) && r != q
    requires Verifies(h, r, a) && Verifies(h, q, b)
    requires i < |a| && j < |b|
    ensures a[i].eventHash != b[j].eventHash
  {
    assert Linked(h, r, a, i) && Linked(h, q, b, j);
    assert a[i].draft.(runId := r).runId != b[j].draft.(runId := q).runId;
  }
}
