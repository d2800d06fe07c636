/**
 * Aggregates over latency samples, as the metrics summary computes them with
 * Python's `sum`, `len`, `max` and `min`. Samples are exact reals, so no
 * rounding is modelled.
 */
module Stats {

  /** Sum of the samples, folded from the right (`s[0] + (s[1] + ...)`); 0 for no samples. */
  function Sum(s: seq<real>): real
  {
    if |s| == 0 then 0.0 else s[0] + Sum(s[1..])
  }

  /** `avg` is the mean of `s`, and 0 for no samples. */
  predicate IsMeanOf(avg: real, s: seq<real>)
  {
    if |s| == 0 then avg == 0.0 else avg * (|s| as real) == Sum(s)
  }

  /** `sum(s) / len(s) if s else 0`. */
  function Mean(s: seq<real>): (r: real)
    ensures IsMeanOf(r, s)
  {
    if |s| == 0 then 0.0 else Sum(s) / (|s| as real)
  }

  /** `max(s)`: a sample that no other sample exceeds. */
  function Largest(s: seq<real>): (r: real)
    requires |s| > 0
    ensures r in s
    ensures forall i :: 0 <= i < |s| ==> s[i] <= r
  {
    if |s| == 1 then s[0]
    else
      var rest := Largest(s[1..]);
      assert forall i :: 1 <= i < |s| ==> s[i] == s[1..][i - 1];
      if s[0] >= rest then s[0] else rest
  }

  /** `min(s)`: a sample that no other sample undercuts. */
  function Smallest(s: seq<real>): (r: real)
    requires |s| > 0
    ensures r in s
    ensures forall i :: 0 <= i < |s| ==> r <= s[i]
  {
    if |s| == 1 then s[0]
    else
      var rest := Smallest(s[1..]);
      assert forall i :: 1 <= i < |s| ==> s[i] == s[1..][i - 1];
      if s[0] <= rest then s[0] else rest
  }

  /** `Largest(s) if s else 0`, the summary's "Max Latency" cell. */
  function MaxOrZero(s: seq<real>): (r: real)
    ensures |s| == 0 ==> r == 0.0
    ensures |s| > 0 ==> r in s && forall i :: 0 <= i < |s| ==> s[i] <= r
  {
    if |s| == 0 then 0.0 else Largest(s)
  }

  /** `Smallest(s) if s else 0`, the summary's "Min Latency" cell. */
  function MinOrZero(s: seq<real>): (r: real)
    ensures |s| == 0 ==> r == 0.0
    ensures |s| > 0 ==> r in s && forall i :: 0 <= i < |s| ==> r <= s[i]
  {
    if |s| == 0 then 0.0 else Smallest(s)
  }

  /** A sum is bounded by the count times any upper bound of the samples. */
  lemma {:induction false} SumAtMost(s: seq<real>, b: real)
    requires forall i :: 0 <= i < |s| ==> s[i] <= b
    ensures Sum(s) <= (|s| as real) * b
  {
    if |s| > 0 {
      assert forall i :: 0 <= i < |s[1..]| ==> s[1..][i] == s[i + 1];
      SumAtMost(s[1..], b);
    }
  }

  /** A sum is at least the count times any lower bound of the samples. */
  lemma {:induction false} SumAtLeast(s: seq<real>, b: real)
    requires forall i :: 0 <= i < |s| ==> b <= s[i]
    ensures (|s| as real) * b <= Sum(s)
  {
    if |s| > 0 {
      assert forall i :: 0 <= i < |s[1..]| ==> s[1..][i] == s[i + 1];
      SumAtLeast(s[1..], b);
    }
  }

  /** Scaling by a positive count preserves order between reals. */
  lemma ScaledOrder(a: real, b: real, n: real)
    requires n > 0.0
    requires a * n <= b * n
    ensures a <= b
  {
  }

  /** The mean of non-empty samples is at most any upper bound of them. */
  lemma MeanAtMost(s: seq<real>, b: real)
    requires |s| > 0
    requires forall i :: 0 <= i < |s| ==> s[i] <= b
    ensures Mean(s) <= b
  {
    var n := |s| as real;
    SumAtMost(s, b);
    ScaledOrder(Mean(s), b, n);
  }

  /** The mean of non-empty samples is at least any lower bound of them. */
  lemma MeanAtLeast(s: seq<real>, b: real)
    requires |s| > 0
    requires forall i :: 0 <= i < |s| ==> b <= s[i]
    ensures b <= Mean(s)
  {
    var n := |s| as real;
    SumAtLeast(s, b);
    ScaledOrder(b, Mean(s), n);
  }

  /** For non-empty samples the mean lies between the minimum and the maximum. */
  lemma MeanBetweenExtremes(s: seq<real>)
    requires |s| > 0
    ensures Smallest(s) <= Mean(s) <= Largest(s)
  {
    MeanAtMost(s, Largest(s));
    MeanAtLeast(s, Smallest(s));
  }

  /** The zero-defaulted minimum and maximum bracket the zero-defaulted mean. */
  lemma MeanWithinDefaults(s: seq<real>)
    ensures MinOrZero(s) <= Mean(s) <= MaxOrZero(s)
  {
    if |s| > 0 {
      MeanBetweenExtremes(s);
    }
  }
}
