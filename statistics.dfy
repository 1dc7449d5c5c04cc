/** The running statistics M48 keeps over the samples accepted so far. */
module Statistics {

  /** Starting values of `min` and `max` before the first sample. */
  const MinInit: real := 99999.9
  const MaxInit: real := -99999.9

  /** Sum of the samples, added in index order. */
  function Sum(s: seq<real>): real {
    if s == [] then 0.0 else Sum(s[..|s| - 1]) + s[|s| - 1]
  }

  /** The arithmetic mean; 0.0, the value `mean` starts with, for no samples. */
  function Mean(s: seq<real>): real {
    if s == [] then 0.0 else Sum(s) / |s| as real
  }

  /** Sum of the squared deviations of the samples from `m`. */
  function SqDev(s: seq<real>, m: real): (r: real)
    ensures r >= 0.0
  {
    if s == [] then 0.0
    else
      var d := s[|s| - 1] - m;
      SqDev(s[..|s| - 1], m) + d * d
  }

  /** `min` after NOMORE(min, x) for every sample x in turn. */
  function Lowest(s: seq<real>): real {
    if s == [] then MinInit
    else
      var m := Lowest(s[..|s| - 1]);
      if m > s[|s| - 1] then s[|s| - 1] else m
  }

  /** `max` after NOLESS(max, x) for every sample x in turn. */
  function Highest(s: seq<real>): real {
    if s == [] then MaxInit
    else
      var m := Highest(s[..|s| - 1]);
      if m < s[|s| - 1] then s[|s| - 1] else m
  }

  /** `min` is at most every sample and the starting value, and it is one of them. */
  lemma {:induction false} LowestBound(s: seq<real>)
    ensures forall i | 0 <= i < |s| :: Lowest(s) <= s[i]
    ensures Lowest(s) <= MinInit
    ensures Lowest(s) == MinInit || Lowest(s) in s
  {
    if s != [] {
      var t, x := s[..|s| - 1], s[|s| - 1];
      LowestBound(t);
      assert s == t + [x];
      forall i | 0 <= i < |s| ensures Lowest(s) <= s[i] {
        if i < |t| { assert s[i] == t[i]; }
      }
    }
  }

  /** `max` is at least every sample and the starting value, and it is one of them. */
  lemma {:induction false} HighestBound(s: seq<real>)
    ensures forall i | 0 <= i < |s| :: s[i] <= Highest(s)
    ensures MaxInit <= Highest(s)
    ensures Highest(s) == MaxInit || Highest(s) in s
  {
    if s != [] {
      var t, x := s[..|s| - 1], s[|s| - 1];
      HighestBound(t);
      assert s == t + [x];
      forall i | 0 <= i < |s| ensures s[i] <= Highest(s) {
        if i < |t| { assert s[i] == t[i]; }
      }
    }
  }

  /** The four values M48 keeps while sampling: mean, min, max and the sum of squared deviations
      from the mean that sigma is taken from. */
  datatype Stats = Stats(mean: real, min: real, max: real, sumSq: real)

  /** The values before the first sample: mean = 0.0, min = 99999.9, max = -99999.9. */
  const Initial: Stats := Stats(0.0, MinInit, MaxInit, 0.0)

  /** The values recomputed after the samples `s` have been accepted. */
  function Summary(s: seq<real>): Stats {
    Stats(Mean(s), Lowest(s), Highest(s), SqDev(s, Mean(s)))
  }

  /** Adding a sample never raises `min` and never lowers `max`. */
  lemma ExtremesMonotone(s: seq<real>, x: real)
    ensures Lowest(s + [x]) <= Lowest(s) && Lowest(s + [x]) <= x
    ensures Highest(s) <= Highest(s + [x]) && x <= Highest(s + [x])
  {
    assert (s + [x])[..|s|] == s;
    LowestBound(s);
    HighestBound(s);
  }

  /** Every sample lies in [lo, hi], so the sum lies in [n * lo, n * hi]. */
  lemma {:induction false} SumBounds(s: seq<real>, lo: real, hi: real)
    requires forall i | 0 <= i < |s| :: lo <= s[i] <= hi
    ensures |s| as real * lo <= Sum(s) <= |s| as real * hi
  {
    if s != [] {
      var t := s[..|s| - 1];
      assert forall i | 0 <= i < |t| :: t[i] == s[i];
      SumBounds(t, lo, hi);
      assert |s| as real * lo == |t| as real * lo + lo;
      assert |s| as real * hi == |t| as real * hi + hi;
    }
  }

  /** The mean of samples that all lie in [lo, hi] lies in [lo, hi]. */
  lemma MeanBounds(s: seq<real>, lo: real, hi: real)
    requires s != [] && forall i | 0 <= i < |s| :: lo <= s[i] <= hi
    ensures lo <= Mean(s) <= hi
  {
    SumBounds(s, lo, hi);
    QuotientBounds(Sum(s), |s| as real, lo, hi);
  }

  /** min <= mean <= max after every accepted sample. */
  lemma MeanWithinExtremes(s: seq<real>)
    requires s != []
    ensures Lowest(s) <= Mean(s) <= Highest(s)
  {
    LowestBound(s);
    HighestBound(s);
    MeanBounds(s, Lowest(s), Highest(s));
  }

  lemma QuotientBounds(sum: real, n: real, lo: real, hi: real)
    requires 0.0 < n && n * lo <= sum <= n * hi
    ensures lo <= sum / n <= hi
  {
    var q := sum / n;
    assert sum == q * n;
    assert (q - lo) * n >= 0.0;
    assert (hi - q) * n >= 0.0;
  }

  /** `sum += sample_set[j]` for j in 0 .. k-1, then `mean = sum / k`. */
  method PrefixMean(a: array<real>, k: nat) returns (mean: real)
    requires 0 < k <= a.Length
    ensures mean == Mean(a[..k])
  {
    var sum := 0.0;
    for j := 0 to k
      invariant sum == Sum(a[..j])
    {
      assert a[..j + 1][..j] == a[..j];
      sum := sum + a[j];
    }
    mean := sum / k as real;
  }

  /** `sum += sq(sample_set[j] - mean)` for j in 0 .. k-1. */
  method PrefixSqDev(a: array<real>, k: nat, mean: real) returns (sum: real)
    requires k <= a.Length
    ensures sum == SqDev(a[..k], mean)
  {
    sum := 0.0;
    for j := 0 to k
      invariant sum == SqDev(a[..j], mean)
    {
      assert a[..j + 1][..j] == a[..j];
      sum := sum + (a[j] - mean) * (a[j] - mean);
    }
  }
}
