/** The burst estimate of the shortest-job-first scheduler. */
module Estimates {

  /** planner/src/launcher.c, `estimation`; `alpha` is the configured percentage. */
  function Estimation(alpha: real, duration: nat, estimate: real): real {
    (alpha / 100.0) * duration as real + (1.0 - alpha / 100.0) * estimate
  }

  /** The estimate left by bursts d1..dn, applied one at a time. */
  function AfterBursts(alpha: real, estZero: real, bursts: seq<nat>): real {
    if bursts == [] then estZero
    else Estimation(alpha, bursts[|bursts| - 1], AfterBursts(alpha, estZero, bursts[..|bursts| - 1]))
  }

  function Power(x: real, n: nat): real {
    if n == 0 then 1.0 else x * Power(x, n - 1)
  }

  function Term(a: real, b: real, k: nat, d: nat): real {
    a * Power(b, k) * d as real
  }

  /** The sum over the first m of n bursts of a * b^(n-i) * di. */
  function WeightedSum(a: real, b: real, bursts: seq<nat>, m: nat): real
    requires m <= |bursts|
  {
    if m == 0 then 0.0
    else WeightedSum(a, b, bursts, m - 1) + Term(a, b, |bursts| - m, bursts[m - 1])
  }

  lemma {:induction false} WeightedSumGrows(a: real, b: real, bursts: seq<nat>, d: nat, m: nat)
    requires m <= |bursts|
    ensures WeightedSum(a, b, bursts + [d], m) == b * WeightedSum(a, b, bursts, m)
  {
    if m > 0 {
      WeightedSumGrows(a, b, bursts, d, m - 1);
      TermGrows(a, b, |bursts| - m, bursts[m - 1]);
      Factor(b, WeightedSum(a, b, bursts, m - 1), Term(a, b, |bursts| - m, bursts[m - 1]));
    }
  }

  lemma TermGrows(a: real, b: real, k: nat, d: nat)
    ensures Term(a, b, k + 1, d) == b * Term(a, b, k, d)
  {}

  lemma Factor(b: real, x: real, y: real)
    ensures b * (x + y) == b * x + b * y
  {}

  /** The closed form with separate weights for the new burst and the old estimate. */
  function Closed(a: real, b: real, z: real, bursts: seq<nat>): real {
    Power(b, |bursts|) * z + WeightedSum(a, b, bursts, |bursts|)
  }

  /** The closed form: (1-a)^n * EST_ZERO plus the weighted sum of all bursts, where a is ALPHA/100. */
  lemma {:induction false} ClosedForm(alpha: real, estZero: real, bursts: seq<nat>)
    ensures AfterBursts(alpha, estZero, bursts) == Closed(alpha / 100.0, 1.0 - alpha / 100.0, estZero, bursts)
  {
    var a, b := alpha / 100.0, 1.0 - alpha / 100.0;
    if bursts == [] {
      assert Closed(a, b, estZero, bursts) == 1.0 * estZero + 0.0;
    } else {
      var n := |bursts| - 1;
      ClosedForm(alpha, estZero, bursts[..n]);
      assert bursts == bursts[..n] + [bursts[n]];
      NextBurst(a, b, estZero, bursts[..n], bursts[n]);
    }
  }

  lemma NextBurst(a: real, b: real, z: real, bursts: seq<nat>, d: nat)
    ensures a * d as real + b * Closed(a, b, z, bursts) == Closed(a, b, z, bursts + [d])
  {
    var n := |bursts|;
    WeightedSumGrows(a, b, bursts, d, n);
    Factor(b, Power(b, n) * z, WeightedSum(a, b, bursts, n));
    assert Term(a, b, 0, d) == a * d as real;
    assert b * (Power(b, n) * z) == Power(b, n + 1) * z;
  }

  /** For a percentage, the estimate never leaves an interval that holds EST_ZERO and every burst. */
  lemma {:induction false} EstimateStaysInside(alpha: real, estZero: real, bursts: seq<nat>, lo: real, hi: real)
    requires 0.0 <= alpha <= 100.0
    requires lo <= estZero <= hi
    requires forall i :: 0 <= i < |bursts| ==> lo <= bursts[i] as real <= hi
    ensures lo <= AfterBursts(alpha, estZero, bursts) <= hi
  {
    if bursts != [] {
      var n := |bursts| - 1;
      EstimateStaysInside(alpha, estZero, bursts[..n], lo, hi);
      var a := alpha / 100.0;
      Whole(a, 1.0 - a, lo);
      Whole(a, 1.0 - a, hi);
      Mix(a, 1.0 - a, bursts[n] as real, AfterBursts(alpha, estZero, bursts[..n]), lo, hi);
    }
  }

  lemma Mix(a: real, b: real, x: real, y: real, lo: real, hi: real)
    requires 0.0 <= a && 0.0 <= b && lo <= x <= hi && lo <= y <= hi
    requires a * lo + b * lo == lo && a * hi + b * hi == hi
    ensures lo <= a * x + b * y <= hi
  {
    Scale(a, lo, x);
    Scale(b, lo, y);
    Scale(a, x, hi);
    Scale(b, y, hi);
    Sandwich(a * lo, a * x, a * hi, b * lo, b * y, b * hi, lo, hi);
  }

  lemma Sandwich(p: real, q: real, r: real, u: real, v: real, w: real, lo: real, hi: real)
    requires p <= q <= r && u <= v <= w && p + u == lo && r + w == hi
    ensures lo <= q + v <= hi
  {}

  lemma Scale(a: real, x: real, y: real)
    requires 0.0 <= a && x <= y
    ensures a * x <= a * y
  {}

  lemma Whole(a: real, b: real, x: real)
    requires a + b == 1.0
    ensures a * x + b * x == x
  {
    assert (a + b) * x == a * x + b * x;
  }
}
