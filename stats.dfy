/**
 * The arithmetic both the orchestrator's summary and the analyzer use:
 * sums, means with a zero fallback for an empty list, minimum, maximum and
 * percentages. Latencies are `real` (the source's floats, without rounding).
 */
module Stats {

  function Sum(xs: seq<real>): real {
    if |xs| == 0 then 0.0 else Sum(xs[..|xs| - 1]) + xs[|xs| - 1]
  }

  function SumInt(xs: seq<int>): int {
    if |xs| == 0 then 0 else SumInt(xs[..|xs| - 1]) + xs[|xs| - 1]
  }

  /** `sum(xs) / len(xs) if xs else 0`. */
  function Mean(xs: seq<real>): (m: real)
    ensures |xs| == 0 ==> m == 0.0
  {
    if |xs| == 0 then 0.0 else Sum(xs) / (|xs| as real)
  }

  /** `sum(tokens) / len(tokens) if tokens else 0`, over integer token counts. */
  function MeanInt(xs: seq<int>): (m: real)
    ensures |xs| == 0 ==> m == 0.0
  {
    if |xs| == 0 then 0.0 else (SumInt(xs) as real) / (|xs| as real)
  }

  function Min(xs: seq<real>): (m: real)
    requires |xs| > 0
    ensures m in xs
    ensures forall i :: 0 <= i < |xs| ==> m <= xs[i]
  {
    if |xs| == 1 then xs[0]
    else
      var p := Min(xs[..|xs| - 1]);
      assert forall i :: 0 <= i < |xs| - 1 ==> xs[..|xs| - 1][i] == xs[i];
      if xs[|xs| - 1] < p then xs[|xs| - 1] else p
  }

  function Max(xs: seq<real>): (m: real)
    requires |xs| > 0
    ensures m in xs
    ensures forall i :: 0 <= i < |xs| ==> xs[i] <= m
  {
    if |xs| == 1 then xs[0]
    else
      var p := Max(xs[..|xs| - 1]);
      assert forall i :: 0 <= i < |xs| - 1 ==> xs[..|xs| - 1][i] == xs[i];
      if p < xs[|xs| - 1] then xs[|xs| - 1] else p
  }

  lemma {:induction false} SumBounds(xs: seq<real>, lo: real, hi: real)
    requires forall i :: 0 <= i < |xs| ==> lo <= xs[i] <= hi
    ensures (|xs| as real) * lo <= Sum(xs) <= (|xs| as real) * hi
  {
    if |xs| > 0 {
      var p := xs[..|xs| - 1];
      assert forall i :: 0 <= i < |p| ==> p[i] == xs[i];
      SumBounds(p, lo, hi);
    }
  }

  /** A non-empty list's mean lies between its minimum and its maximum. */
  lemma MeanBetween(xs: seq<real>)
    requires |xs| > 0
    ensures Min(xs) <= Mean(xs) <= Max(xs)
  {
    MeanWithin(xs, Min(xs), Max(xs));
  }

  /** The mean of values that all lie in [lo, hi] lies in [lo, hi]. */
  lemma MeanWithin(xs: seq<real>, lo: real, hi: real)
    requires |xs| > 0
    requires forall i :: 0 <= i < |xs| ==> lo <= xs[i] <= hi
    ensures lo <= Mean(xs) <= hi
  {
    SumBounds(xs, lo, hi);
    DivBounds(Sum(xs), |xs| as real, lo, hi);
  }

  lemma DivBounds(total: real, n: real, lo: real, hi: real)
    requires n > 0.0 && n * lo <= total <= n * hi
    ensures lo <= total / n <= hi
  {
  }

  /** `part / whole * 100`, the source's success rate. */
  function Percent(part: nat, whole: nat): (r: real)
    requires whole > 0
    ensures part <= whole ==> 0.0 <= r <= 100.0
    ensures r == 100.0 <==> part == whole
    ensures r == 0.0 <==> part == 0
  {
    (part as real) / (whole as real) * 100.0
  }
}
