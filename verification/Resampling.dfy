/**
 Linear-interpolation resampling of a whole stream, in exact arithmetic.

 A read position is kept as an integer scaled by the destination rate: output k reads
 position k * src, whose source index is k * src / dst and whose fraction is
 (k * src % dst) / dst. Both streaming resamplers of the system (the Python one for
 speech providers and the browser capture worklet) are proved against these definitions.
 */
module Resampling {
  type pos = n: int | 0 < n witness 1

  /** How many output samples a source of n samples gives: those read strictly before sample n-1. */
  function OutputCount(n: nat, src: pos, dst: pos): nat {
    if n == 0 then 0 else CeilDiv((n - 1) * dst, src)
  }

  function CeilDiv(a: nat, d: pos): nat {
    (a + d - 1) / d
  }

  /** k is below the ceiling exactly when the k-th step starts before a. */
  lemma CeilDivMeaning(a: nat, d: pos, k: nat)
    ensures k < CeilDiv(a, d) <==> k * d < a
  {
    var q, r := (a + d - 1) / d, (a + d - 1) % d;
    assert a + d - 1 == q * d + r;
    if k < q {
      MulMono(k + 1, q, d);
    } else {
      MulMono(q, k, d);
    }
  }

  lemma MulMono(a: int, b: int, d: nat)
    requires a <= b
    ensures a * d <= b * d
    ensures (a + 1) * d == a * d + d
  {
  }

  /** Division is exact on the integer part: (a * d + r) / d == a + r / d. */
  lemma DivShift(a: int, r: int, d: pos)
    ensures (a * d + r) / d == a + r / d
    ensures (a * d + r) % d == r % d
  {
    var q, m := r / d, r % d;
    assert r == q * d + m;
    assert (a + q) * d == a * d + q * d;
    DivUnique(a * d + r, d, a + q, m);
  }

  lemma DivUnique(x: int, d: pos, q: int, m: int)
    requires x == q * d + m && 0 <= m < d
    ensures x / d == q && x % d == m
  {
    var q', m' := x / d, x % d;
    assert x == q' * d + m';
    if q < q' {
      MulMono(q + 1, q', d);
    } else if q' < q {
      MulMono(q' + 1, q, d);
    }
  }

  /** A position before sample n-1 has both of its neighbours among the n samples. */
  lemma PositionInBounds(p: nat, dst: pos, n: nat)
    requires p < (n - 1) * dst
    ensures 0 <= p / dst < n - 1
  {
    assert p == p / dst * dst + p % dst;
    if n - 1 <= p / dst {
      MulMono(n - 1, p / dst, dst);
    }
  }

  /** The exact interpolated value at scaled position p, multiplied by dst. */
  function ScaledValue(s: seq<int>, p: nat, dst: pos): int
    requires p < (|s| - 1) * dst
  {
    PositionInBounds(p, dst, |s|);
    s[p / dst] * dst + (s[p / dst + 1] - s[p / dst]) * (p % dst)
  }

  /** Division that truncates toward zero, as int() does on a float. */
  function TruncDiv(a: int, d: pos): int {
    if a >= 0 then a / d else -((-a) / d)
  }

  /** Output k of the resampled stream. */
  function OutputAt(s: seq<int>, k: nat, src: pos, dst: pos): int
    requires k < OutputCount(|s|, src, dst)
  {
    CeilDivMeaning((|s| - 1) * dst, src, k);
    TruncDiv(ScaledValue(s, k * src, dst), dst)
  }

  /** The first k output samples of the source s. */
  function OutputPrefix(s: seq<int>, k: nat, src: pos, dst: pos): (out: seq<int>)
    requires k <= OutputCount(|s|, src, dst)
    ensures |out| == k
  {
    if k == 0 then [] else OutputPrefix(s, k - 1, src, dst) + [OutputAt(s, k - 1, src, dst)]
  }

  /** The whole stream resampled in one go. */
  function Resampled(s: seq<int>, src: pos, dst: pos): (out: seq<int>)
    ensures |out| == OutputCount(|s|, src, dst)
  {
    OutputPrefix(s, OutputCount(|s|, src, dst), src, dst)
  }

  /** After n >= 1 samples the next read position lies in the step that crosses sample n-1. */
  lemma CarriedPosition(n: nat, src: pos, dst: pos)
    requires n >= 1
    ensures 0 <= OutputCount(n, src, dst) * src - (n - 1) * dst < src
  {
    var a := (n - 1) * dst;
    var c := CeilDiv(a, src);
    CeilDivMeaning(a, src, c);
    if c > 0 {
      CeilDivMeaning(a, src, c - 1);
      MulMono(c - 1, c, src);
    }
  }

  lemma CountMono(m: nat, n: nat, src: pos, dst: pos)
    requires m <= n
    ensures OutputCount(m, src, dst) <= OutputCount(n, src, dst)
  {
    if 0 < m {
      MulMono(m - 1, n - 1, dst);
      var c := OutputCount(m, src, dst);
      if c > 0 {
        CeilDivMeaning((m - 1) * dst, src, c - 1);
        CeilDivMeaning((n - 1) * dst, src, c - 1);
      }
    }
  }

  /** More source samples never change an output that could already be computed. */
  lemma OutputAtStable(s: seq<int>, t: seq<int>, k: nat, src: pos, dst: pos)
    requires k < OutputCount(|s|, src, dst)
    ensures k < OutputCount(|s + t|, src, dst)
    ensures OutputAt(s, k, src, dst) == OutputAt(s + t, k, src, dst)
  {
    CountMono(|s|, |s + t|, src, dst);
    CeilDivMeaning((|s| - 1) * dst, src, k);
    PositionInBounds(k * src, dst, |s|);
  }

  lemma {:induction false} OutputPrefixStable(s: seq<int>, t: seq<int>, k: nat, src: pos, dst: pos)
    requires k <= OutputCount(|s|, src, dst)
    ensures k <= OutputCount(|s + t|, src, dst)
    ensures OutputPrefix(s, k, src, dst) == OutputPrefix(s + t, k, src, dst)
  {
    CountMono(|s|, |s + t|, src, dst);
    if k > 0 {
      OutputPrefixStable(s, t, k - 1, src, dst);
      OutputAtStable(s, t, k - 1, src, dst);
    }
  }

  lemma {:induction false} OutputPrefixIndex(s: seq<int>, k: nat, src: pos, dst: pos, j: nat)
    requires j < k <= OutputCount(|s|, src, dst)
    ensures OutputPrefix(s, k, src, dst)[j] == OutputAt(s, j, src, dst)
  {
    if j < k - 1 {
      OutputPrefixIndex(s, k - 1, src, dst, j);
    }
  }

  /** The closed form: which outputs exist, and what each of them is. */
  lemma ResampledMeaning(s: seq<int>, src: pos, dst: pos, k: nat)
    ensures k < |Resampled(s, src, dst)| <==> |s| >= 1 && k * src < (|s| - 1) * dst
    ensures k < |Resampled(s, src, dst)| ==> Resampled(s, src, dst)[k] == OutputAt(s, k, src, dst)
  {
    if |s| >= 1 {
      CeilDivMeaning((|s| - 1) * dst, src, k);
    }
    if k < OutputCount(|s|, src, dst) {
      OutputPrefixIndex(s, OutputCount(|s|, src, dst), src, dst, k);
    }
  }

  function Min(a: int, b: int): int { if a < b then a else b }
  function Max(a: int, b: int): int { if a < b then b else a }

  /** A weighted mean with weights w and d - w lies between its ends. */
  lemma WeightedMean(a: int, b: int, w: nat, d: pos)
    requires w <= d
    ensures Min(a, b) * d <= a * d + (b - a) * w <= Max(a, b) * d
  {
    if a <= b {
      MulMono(w, d, b - a);
    } else {
      MulMono(w, d, a - b);
      assert (b - a) * w == -((a - b) * w);
    }
  }

  lemma FloorBetween(lo: int, hi: int, v: int, d: pos)
    requires lo * d <= v <= hi * d
    ensures lo <= v / d <= hi
  {
    assert v == v / d * d + v % d;
    if hi < v / d {
      MulMono(hi + 1, v / d, d);
    } else if v / d < lo {
      MulMono(v / d + 1, lo, d);
    }
  }

  lemma TruncBetween(lo: int, hi: int, v: int, d: pos)
    requires lo * d <= v <= hi * d
    ensures lo <= TruncDiv(v, d) <= hi
  {
    if v >= 0 {
      FloorBetween(lo, hi, v, d);
    } else {
      assert (-hi) * d == -(hi * d);
      assert (-lo) * d == -(lo * d);
      FloorBetween(-hi, -lo, -v, d);
    }
  }

  /** Each output lies between the two source samples around its read position. */
  lemma OutputBetweenNeighbours(s: seq<int>, k: nat, src: pos, dst: pos)
    requires k < OutputCount(|s|, src, dst)
    ensures 0 <= k * src / dst < |s| - 1
    ensures Min(s[k * src / dst], s[k * src / dst + 1]) <= OutputAt(s, k, src, dst)
    ensures OutputAt(s, k, src, dst) <= Max(s[k * src / dst], s[k * src / dst + 1])
  {
    CeilDivMeaning((|s| - 1) * dst, src, k);
    PositionInBounds(k * src, dst, |s|);
    var i, f := k * src / dst, k * src % dst;
    WeightedMean(s[i], s[i + 1], f, dst);
    TruncBetween(Min(s[i], s[i + 1]), Max(s[i], s[i + 1]), ScaledValue(s, k * src, dst), dst);
  }

  /** Samples within a range resample to samples within that range. */
  lemma RangeKept(s: seq<int>, k: nat, src: pos, dst: pos, lo: int, hi: int)
    requires k < OutputCount(|s|, src, dst)
    requires forall i :: 0 <= i < |s| ==> lo <= s[i] <= hi
    ensures lo <= OutputAt(s, k, src, dst) <= hi
  {
    OutputBetweenNeighbours(s, k, src, dst);
  }
}
