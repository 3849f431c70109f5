/**
 Scores under the default weights (src/project_supervisor/scheduler.py), for any rounding that stays
 within a thousandth.
 */
module DefaultScores {
  import opened Scheduler

  const WEIGHTS: Weights := [3.0, 2.0, 2.0, 1.5, 1.0, 1.0, 1.5, 1.0, 2.0, 1.5]

  ghost predicate Close(round: real -> real) {
    forall x :: x - 0.001 <= round(x) <= x + 0.001
  }

  ghost predicate Default(cfg: Config) { cfg.weights == WEIGHTS && Close(cfg.round) }

  function SumTo(w: seq<real>, n: nat): real
    requires n <= |w|
  {
    if n == 0 then 0.0 else SumTo(w, n - 1) + w[n - 1]
  }

  function DotTo(c: seq<real>, w: seq<real>, n: nat): real
    requires n <= |w| == |c|
  {
    if n == 0 then 0.0 else DotTo(c, w, n - 1) + c[n - 1] * w[n - 1]
  }

  lemma {:induction false} SumToIsSum(w: seq<real>, n: nat)
    requires n <= |w|
    ensures Sum(w[..n]) == SumTo(w, n)
  {
    if n > 0 {
      SumToIsSum(w, n - 1);
      assert w[..n][..n - 1] == w[..n - 1];
    }
  }

  lemma {:induction false} DotToIsDot(c: seq<real>, w: seq<real>, n: nat)
    requires n <= |w| == |c|
    ensures Dot(c[..n], w[..n]) == DotTo(c, w, n)
  {
    if n > 0 {
      DotToIsDot(c, w, n - 1);
      assert w[..n][..n - 1] == w[..n - 1] && c[..n][..n - 1] == c[..n - 1];
    }
  }

  lemma WeightsSum()
    ensures Sum(WEIGHTS) == 16.5
  {
    SumToIsSum(WEIGHTS, 10);
    assert WEIGHTS[..10] == WEIGHTS;
    assert SumTo(WEIGHTS, 5) == 9.5;
  }

  lemma WeightedSum(c: seq<real>)
    requires |c| == 10
    ensures Dot(c, WEIGHTS) ==
      3.0 * c[0] + 2.0 * c[1] + 2.0 * c[2] + 1.5 * c[3] + c[4] + c[5] + 1.5 * c[6] + c[7] + 2.0 * c[8] + 1.5 * c[9]
  {
    DotToIsDot(c, WEIGHTS, 10);
    assert WEIGHTS[..10] == WEIGHTS && c[..10] == c;
    var w := WEIGHTS;
    assert w[0] == 3.0 && w[1] == 2.0 && w[2] == 2.0 && w[3] == 1.5 && w[4] == 1.0;
    assert w[5] == 1.0 && w[6] == 1.5 && w[7] == 1.0 && w[8] == 2.0 && w[9] == 1.5;
    assert DotTo(c, w, 0) == 0.0;
    assert DotTo(c, w, 1) == 3.0 * c[0];
    assert DotTo(c, w, 2) == DotTo(c, w, 1) + 2.0 * c[1];
    assert DotTo(c, w, 3) == DotTo(c, w, 2) + 2.0 * c[2];
    assert DotTo(c, w, 4) == DotTo(c, w, 3) + 1.5 * c[3];
    assert DotTo(c, w, 5) == DotTo(c, w, 4) + c[4];
    assert DotTo(c, w, 6) == DotTo(c, w, 5) + c[5];
    assert DotTo(c, w, 7) == DotTo(c, w, 6) + 1.5 * c[6];
    assert DotTo(c, w, 8) == DotTo(c, w, 7) + c[7];
    assert DotTo(c, w, 9) == DotTo(c, w, 8) + 2.0 * c[8];
  }

  /** A worker that differs from another only in quality and health, and is better by a margin that
      rounding cannot hide, scores higher. */
  lemma MarginDecides(cfg: Config, req: Requirements, ev: Evidence, v: Worker, w: Worker)
    requires Default(cfg)
    requires var c, d := Components(req, v, HealthOf(ev, v.id)), Components(req, w, HealthOf(ev, w.id));
             && (forall k :: 0 <= k < 10 && k != 1 && k != 3 ==> c[k] == d[k])
             && 2.0 * (d[1] - c[1]) + 1.5 * (d[3] - c[3]) >= 0.1
    ensures Score(cfg, req, ev, v) < Score(cfg, req, ev, w)
  {
    var c, d := Components(req, v, HealthOf(ev, v.id)), Components(req, w, HealthOf(ev, w.id));
    WeightsSum();
    WeightedSum(c);
    WeightedSum(d);
    var x, y := Dot(c, WEIGHTS) / 16.5, Dot(d, WEIGHTS) / 16.5;
    assert y - x >= 0.1 / 16.5;
    assert cfg.round(x) <= x + 0.001 && y - 0.001 <= cfg.round(y);
  }
}
