/**
 * Similarity measures between integer sequences
 * (com.groovegarden.util.Similarity): the cosine of the common prefix, the
 * lag autocorrelation and dynamic time warping. A `null` list is `None`.
 * Doubles are modelled as exact reals; the cosine keeps its square roots
 * symbolic, as the three sums it is computed from.
 */
module Similarity {
  import opened JavaInt

  /**
   * What calculateSimilarity returns: 0.0, or dot / (sqrt(norm1) * sqrt(norm2))
   * for two positive norms.
   */
  datatype Cosine = Zero | Ratio(dot: int, norm1: int, norm2: int)

  /** The dot product of the first k elements. */
  function Dot(a: seq<int>, b: seq<int>, k: nat): int
    requires k <= |a| && k <= |b|
  {
    if k == 0 then 0 else Dot(a, b, k - 1) + a[k - 1] * b[k - 1]
  }

  /** The squared norm of the first k elements. */
  function Norm(a: seq<int>, k: nat): int
    requires k <= |a|
  {
    if k == 0 then 0 else Norm(a, k - 1) + a[k - 1] * a[k - 1]
  }

  /** The cosine of the common prefix of two lists; a missing or empty list, or a zero prefix, gives 0. */
  function CosineOf(list1: Option<seq<int>>, list2: Option<seq<int>>): Cosine {
    if list1.None? || list2.None? || |list1.value| == 0 || |list2.value| == 0 then Zero
    else
      var a, b := list1.value, list2.value;
      var k := Min(|a|, |b|);
      if Norm(a, k) == 0 || Norm(b, k) == 0 then Zero
      else Ratio(Dot(a, b, k), Norm(a, k), Norm(b, k))
  }

  /** calculateSimilarity(List, List): the guard, then one loop accumulating the three sums. */
  method CalculateSimilarity(list1: Option<seq<int>>, list2: Option<seq<int>>) returns (r: Cosine)
    ensures r == CosineOf(list1, list2)
  {
    if list1.None? || list2.None? || |list1.value| == 0 || |list2.value| == 0 {
      return Zero;
    }
    var a, b := list1.value, list2.value;
    var minLength := Min(|a|, |b|);
    var dotProduct, norm1, norm2 := 0, 0, 0;
    var i := 0;
    while i < minLength
      invariant 0 <= i <= minLength
      invariant dotProduct == Dot(a, b, i) && norm1 == Norm(a, i) && norm2 == Norm(b, i)
    {
      var val1, val2 := a[i], b[i];
      dotProduct := dotProduct + val1 * val2;
      norm1 := norm1 + val1 * val1;
      norm2 := norm2 + val2 * val2;
      i := i + 1;
    }
    if norm1 == 0 || norm2 == 0 {
      return Zero;
    }
    r := Ratio(dotProduct, norm1, norm2);
  }

  /** calculateSimilarity(int[], int[]): the same guard, the arrays copied into lists, then the list version. */
  method CalculateSimilarityArrays(first: array?<int>, second: array?<int>) returns (r: Cosine)
    ensures r == CosineOf(if first == null then None else Some(first[..]),
                          if second == null then None else Some(second[..]))
  {
    if first == null || second == null || first.Length == 0 || second.Length == 0 {
      return Zero;
    }
    var list1 := CopyToList(first);
    var list2 := CopyToList(second);
    r := CalculateSimilarity(Some(list1), Some(list2));
  }

  /** The for-each loop that adds every array element to a new list. */
  method CopyToList(a: array<int>) returns (list: seq<int>)
    ensures list == a[..]
  {
    list := [];
    var i := 0;
    while i < a.Length
      invariant 0 <= i <= a.Length
      invariant list == a[..i]
    {
      list := list + [a[i]];
      i := i + 1;
    }
  }

  lemma {:induction false} NormNonNegative(a: seq<int>, k: nat)
    requires k <= |a|
    ensures Norm(a, k) >= 0
    ensures Norm(a, k) == 0 <==> forall i :: 0 <= i < k ==> a[i] == 0
  {
    if k > 0 {
      NormNonNegative(a, k - 1);
      assert a[k - 1] * a[k - 1] >= 0;
      if a[k - 1] != 0 {
        assert a[k - 1] * a[k - 1] > 0;
      }
    }
  }

  lemma {:induction false} DotPrefix(a: seq<int>, b: seq<int>, a': seq<int>, b': seq<int>, k: nat)
    requires k <= |a| && k <= |b| && k <= |a'| && k <= |b'|
    requires a[..k] == a'[..k] && b[..k] == b'[..k]
    ensures Dot(a, b, k) == Dot(a', b', k) && Norm(a, k) == Norm(a', k) && Norm(b, k) == Norm(b', k)
  {
    if k > 0 {
      assert a[..k - 1] == a'[..k - 1] && b[..k - 1] == b'[..k - 1];
      assert a[k - 1] == a[..k][k - 1] == a'[k - 1];
      assert b[k - 1] == b[..k][k - 1] == b'[k - 1];
      DotPrefix(a, b, a', b', k - 1);
    }
  }

  lemma {:induction false} DotSymmetric(a: seq<int>, b: seq<int>, k: nat)
    requires k <= |a| && k <= |b|
    ensures Dot(a, b, k) == Dot(b, a, k)
  {
    if k > 0 {
      DotSymmetric(a, b, k - 1);
    }
  }

  lemma {:induction false} DotSelf(a: seq<int>, k: nat)
    requires k <= |a|
    ensures Dot(a, a, k) == Norm(a, k)
  {
    if k > 0 {
      DotSelf(a, k - 1);
    }
  }

  /** Only the first min(|a|, |b|) elements are read: cutting both lists there changes nothing. */
  lemma CosinePrefix(a: seq<int>, b: seq<int>)
    ensures CosineOf(Some(a), Some(b)) == CosineOf(Some(a[..Min(|a|, |b|)]), Some(b[..Min(|a|, |b|)]))
  {
    var k := Min(|a|, |b|);
    var a', b' := a[..k], b[..k];
    assert a[..k] == a'[..k] && b[..k] == b'[..k];
    DotPrefix(a, b, a', b', k);
  }

  /** Swapping the lists swaps the two norms and keeps the dot product. */
  lemma CosineSymmetric(list1: Option<seq<int>>, list2: Option<seq<int>>)
    ensures CosineOf(list2, list1) == match CosineOf(list1, list2)
      case Zero => Zero
      case Ratio(d, n1, n2) => Ratio(d, n2, n1)
  {
    if list1.Some? && list2.Some? && |list1.value| > 0 && |list2.value| > 0 {
      DotSymmetric(list1.value, list2.value, Min(|list1.value|, |list2.value|));
    }
  }

  /**
   * The result is 0 exactly when a list is missing or empty or one of the
   * compared prefixes is all zeros; a list compared with itself has dot
   * product equal to both norms, the cosine 1.
   */
  lemma CosineZero(list1: Option<seq<int>>, list2: Option<seq<int>>)
    ensures CosineOf(list1, list2) == Zero <==>
      || list1.None? || list2.None? || |list1.value| == 0 || |list2.value| == 0
      || (forall i :: 0 <= i < Min(|list1.value|, |list2.value|) ==> list1.value[i] == 0)
      || (forall i :: 0 <= i < Min(|list1.value|, |list2.value|) ==> list2.value[i] == 0)
    ensures CosineOf(list1, list2).Ratio? ==> CosineOf(list1, list2).norm1 > 0 && CosineOf(list1, list2).norm2 > 0
  {
    if list1.Some? && list2.Some? && |list1.value| > 0 && |list2.value| > 0 {
      var k := Min(|list1.value|, |list2.value|);
      NormNonNegative(list1.value, k);
      NormNonNegative(list2.value, k);
    }
  }

  lemma CosineSelf(a: seq<int>)
    requires exists i :: 0 <= i < |a| && a[i] != 0
    ensures CosineOf(Some(a), Some(a)) == Ratio(Norm(a, |a|), Norm(a, |a|), Norm(a, |a|))
  {
    NormNonNegative(a, |a|);
    DotSelf(a, |a|);
  }

  // ---------------------------------------------------------------------
  // Autocorrelation

  function Sum(data: seq<int>): int {
    if |data| == 0 then 0 else Sum(data[..|data| - 1]) + data[|data| - 1]
  }

  /** The sum of (x - mean)^2 over the list. */
  function SquaredDeviations(data: seq<int>, mean: real): real {
    if |data| == 0 then 0.0
    else SquaredDeviations(data[..|data| - 1], mean) + (data[|data| - 1] as real - mean) * (data[|data| - 1] as real - mean)
  }

  function Mean(data: seq<int>): real
    requires |data| > 0
  {
    Sum(data) as real / |data| as real
  }

  function Variance(data: seq<int>): real
    requires |data| > 0
  {
    SquaredDeviations(data, Mean(data)) / |data| as real
  }

  /** The lagged products (data[i] - mean) * (data[i + lag] - mean) for i < k. */
  function LagProducts(data: seq<int>, lag: nat, mean: real, k: nat): real
    requires k + lag <= |data|
  {
    if k == 0 then 0.0
    else LagProducts(data, lag, mean, k - 1) + (data[k - 1] as real - mean) * (data[k - 1 + lag] as real - mean)
  }

  /**
   * What calculateAutoCorrelation returns: 0.0, or lagged / (pairs * variance),
   * kept as its three parts like the cosine, or the IndexOutOfBoundsException
   * that `data.get(lag)` throws for a negative lag.
   */
  datatype Correlation = NoCorrelation | Normalised(lagged: real, pairs: nat, variance: real) | IndexOutOfBounds

  /**
   * calculateAutoCorrelation: 0 for a missing or too short list or a zero
   * variance (an empty list, which only a negative lag lets past the guard,
   * averages to 0.0 and so has zero variance). A lag so negative that the
   * 32-bit `data.size() - lag` wraps to a negative count skips the loop and
   * gives 0.0 / (a negative number), which is -0.0, modelled as 0. Any other
   * negative lag throws at the first loop iteration, and a lag of at least 0
   * gives the normalised lagged sum.
   */
  function AutoCorrelation(data: Option<seq<int>>, lag: int): Correlation {
    if data.None? || |data.value| < lag + 1 then NoCorrelation
    else
      var d := data.value;
      if |d| == 0 then NoCorrelation
      else
        var mean, variance := Mean(d), Variance(d);
        if variance == 0.0 then NoCorrelation
        else if lag < 0 then (if lag <= |d| - 0x8000_0000 then NoCorrelation else IndexOutOfBounds)
        else Normalised(LagProducts(d, lag, mean, |d| - lag), |d| - lag, variance)
  }

  /**
   * The guard, the stream averages, then the loop over the lagged products.
   * An empty stream averages to 0.0. A pair count that wraps in 32 bits
   * skips the loop; with any other negative lag the first iteration reads
   * index lag and throws.
   */
  method CalculateAutoCorrelation(data: Option<seq<int>>, lag: int) returns (r: Correlation)
    ensures r == AutoCorrelation(data, lag)
  {
    if data.None? || |data.value| < lag + 1 {
      return NoCorrelation;
    }
    var d := data.value;
    if |d| == 0 {
      return NoCorrelation;
    }
    var mean := Mean(d);
    var variance := Variance(d);
    if variance == 0.0 {
      return NoCorrelation;
    }
    if lag < 0 {
      if lag <= |d| - 0x8000_0000 {
        return NoCorrelation;
      }
      return IndexOutOfBounds;
    }
    var correlation := 0.0;
    var i := 0;
    while i < |d| - lag
      invariant 0 <= i <= |d| - lag
      invariant correlation == LagProducts(d, lag, mean, i)
    {
      correlation := correlation + (d[i] as real - mean) * (d[i + lag] as real - mean);
      i := i + 1;
    }
    r := Normalised(correlation, |d| - lag, variance);
  }

  lemma {:induction false} SumConstant(data: seq<int>, c: int)
    requires forall i :: 0 <= i < |data| ==> data[i] == c
    ensures Sum(data) == |data| * c
  {
    if |data| > 0 {
      SumConstant(data[..|data| - 1], c);
    }
  }

  lemma Square(x: real)
    ensures x * x >= 0.0
    ensures x * x == 0.0 ==> x == 0.0
  {
    if x < 0.0 {
      assert (-x) * (-x) > 0.0;
      assert (-x) * (-x) == x * x;
    }
    if x != 0.0 {
      assert x * (x * (1.0 / x)) == (x * x) * (1.0 / x);
      assert x * (1.0 / x) == 1.0;
    }
  }

  lemma {:induction false} DeviationsNonNegative(data: seq<int>, mean: real)
    ensures SquaredDeviations(data, mean) >= 0.0
    ensures SquaredDeviations(data, mean) == 0.0 <==> forall i :: 0 <= i < |data| ==> data[i] as real == mean
  {
    if |data| > 0 {
      var front, last := data[..|data| - 1], data[|data| - 1];
      DeviationsNonNegative(front, mean);
      var x := last as real - mean;
      Square(x);
      var rest := SquaredDeviations(front, mean);
      assert SquaredDeviations(data, mean) == rest + x * x;
      assert forall i :: 0 <= i < |front| ==> front[i] == data[i];
      if rest + x * x == 0.0 {
        assert x * x == 0.0;
        assert x == 0.0;
        assert rest == 0.0;
        forall i | 0 <= i < |data|
          ensures data[i] as real == mean
        {
          if i < |front| {
            assert front[i] as real == mean;
          }
        }
      } else if x == 0.0 {
        var k :| 0 <= k < |front| && front[k] as real != mean;
        assert data[k] as real != mean;
      }
    }
  }

  /** The variance is zero iff every value is the same, so constant data correlates to 0. */
  lemma VarianceZero(data: seq<int>)
    requires |data| > 0
    ensures Variance(data) >= 0.0
    ensures Variance(data) == 0.0 <==> forall i :: 0 <= i < |data| ==> data[i] == data[0]
  {
    var mean := Mean(data);
    DeviationsNonNegative(data, mean);
    var n := |data| as real;
    assert Variance(data) * n == SquaredDeviations(data, mean);
    if forall i :: 0 <= i < |data| ==> data[i] == data[0] {
      SumConstant(data, data[0]);
      assert mean == data[0] as real;
    }
  }

  lemma ConstantDataUncorrelated(data: seq<int>, lag: int)
    requires |data| > 0 && forall i :: 0 <= i < |data| ==> data[i] == data[0]
    ensures AutoCorrelation(Some(data), lag) == NoCorrelation
  {
    VarianceZero(data);
  }

  /**
   * A negative lag whose pair count fits in an int: 0.0 for empty or
   * constant data, and an IndexOutOfBoundsException for any other list.
   */
  lemma NegativeLag(data: seq<int>, lag: int)
    requires |data| - 0x8000_0000 < lag < 0
    ensures AutoCorrelation(Some(data), lag) == IndexOutOfBounds <==>
      exists i :: 0 <= i < |data| && data[i] != data[0]
    ensures AutoCorrelation(Some(data), lag) != IndexOutOfBounds ==> AutoCorrelation(Some(data), lag) == NoCorrelation
  {
    if |data| > 0 {
      VarianceZero(data);
    }
  }

  /** A pair count that wraps in 32 bits never throws: the result is 0.0 for every list. */
  lemma WrappedPairCount(data: seq<int>, lag: int)
    requires lag < 0 && lag <= |data| - 0x8000_0000
    ensures AutoCorrelation(Some(data), lag) == NoCorrelation
  {
  }

  lemma {:induction false} LagZeroProducts(data: seq<int>, mean: real, k: nat)
    requires k <= |data|
    ensures LagProducts(data, 0, mean, k) == SquaredDeviations(data[..k], mean)
  {
    if k > 0 {
      LagZeroProducts(data, mean, k - 1);
      assert data[..k][..k - 1] == data[..k - 1];
    }
  }

  /** With lag 0 and non-constant data the lagged sum is pairs * variance: the autocorrelation is exactly 1. */
  lemma LagZeroIsOne(data: seq<int>)
    requires |data| > 0 && Variance(data) != 0.0
    ensures var c := AutoCorrelation(Some(data), 0);
      c.Normalised? && c.pairs == |data| && c.lagged == c.pairs as real * c.variance
  {
    LagZeroProducts(data, Mean(data), |data|);
    assert data[..|data|] == data;
    var n := |data| as real;
    assert Variance(data) * n == SquaredDeviations(data, Mean(data));
  }

  // ---------------------------------------------------------------------
  // Dynamic time warping

  /** A table entry: a finite distance or Double.POSITIVE_INFINITY. */
  datatype Ext = Fin(n: int) | Inf

  /** cost + e, where infinity absorbs the cost. */
  function AddCost(cost: nat, e: Ext): Ext {
    if e.Inf? then Inf else Fin(cost + e.n)
  }

  /** Math.min on entries, infinity the largest. */
  function MinExt(x: Ext, y: Ext): Ext {
    if x.Inf? then y else if y.Inf? then x else Fin(Min(x.n, y.n))
  }

  /** The minimum is one of its arguments, and finite iff one of them is. */
  lemma MinExtChoice(x: Ext, y: Ext)
    ensures MinExt(x, y) == x || MinExt(x, y) == y
    ensures MinExt(x, y).Fin? <==> x.Fin? || y.Fin?
  {
  }

  /** The inputs whose differences fit in a Java int: every value in [-2^30, 2^30). */
  predicate Bounded(s: seq<int>) {
    forall k :: 0 <= k < |s| ==> -0x4000_0000 <= s[k] < 0x4000_0000
  }

  /**
   * The recurrence the table holds: 0 at (0, 0), infinity elsewhere on
   * row and column 0, and otherwise the local cost plus the cheapest of
   * the three predecessors.
   */
  function D(a: seq<int>, b: seq<int>, i: nat, j: nat): Ext
    requires i <= |a| && j <= |b|
    decreases i + j
  {
    if i == 0 && j == 0 then Fin(0)
    else if i == 0 || j == 0 then Inf
    else AddCost(Abs(a[i - 1] - b[j - 1]), MinExt(MinExt(D(a, b, i - 1, j), D(a, b, i, j - 1)), D(a, b, i - 1, j - 1)))
  }

  /** The filled table: every entry (i, j) is D(i, j). */
  method DTWTable(a: seq<int>, b: seq<int>) returns (dtw: array2<Ext>)
    ensures fresh(dtw) && dtw.Length0 == |a| + 1 && dtw.Length1 == |b| + 1
    ensures forall i, j {:trigger dtw[i, j]} :: 0 <= i <= |a| && 0 <= j <= |b| ==> dtw[i, j] == D(a, b, i, j)
  {
    var n, m := |a|, |b|;
    // new double[n + 1][m + 1] with every row filled with infinity
    dtw := new Ext[n + 1, m + 1]((i, j) => Inf);
    dtw[0, 0] := Fin(0);
    var i := 1;
    while i <= n
      invariant 1 <= i <= n + 1
      invariant forall r, c {:trigger dtw[r, c]} :: 0 <= r < i && 0 <= c <= m ==> dtw[r, c] == D(a, b, r, c)
      invariant forall r {:trigger dtw[r, 0]} :: i <= r <= n ==> dtw[r, 0] == D(a, b, r, 0)
    {
      var j := 1;
      while j <= m
        invariant 1 <= j <= m + 1
        invariant forall r, c {:trigger dtw[r, c]} :: 0 <= r < i && 0 <= c <= m ==> dtw[r, c] == D(a, b, r, c)
        invariant forall r {:trigger dtw[r, 0]} :: i < r <= n ==> dtw[r, 0] == D(a, b, r, 0)
        invariant forall c {:trigger dtw[i, c]} :: 0 <= c < j ==> dtw[i, c] == D(a, b, i, c)
      {
        var cost := Abs(a[i - 1] - b[j - 1]);
        ghost var up, left, diagonal := dtw[i - 1, j], dtw[i, j - 1], dtw[i - 1, j - 1];
        assert up == D(a, b, i - 1, j) && left == D(a, b, i, j - 1) && diagonal == D(a, b, i - 1, j - 1);
        DUnfold(a, b, i, j);
        dtw[i, j] := AddCost(cost, MinExt(MinExt(dtw[i - 1, j], dtw[i, j - 1]), dtw[i - 1, j - 1]));
        j := j + 1;
      }
      i := i + 1;
    }
  }

  /** 1 / (1 + dtw[n][m]) for two non-empty inputs, whose last entry is finite. */
  function DTWSimilarity(s1: Option<seq<int>>, s2: Option<seq<int>>): real {
    if s1.None? || s2.None? || |s1.value| == 0 || |s2.value| == 0 then 0.0
    else
      var a, b := s1.value, s2.value;
      DistanceFinite(a, b, |a|, |b|);
      1.0 / (1.0 + D(a, b, |a|, |b|).n as real)
  }

  /** calculateDTWSimilarity: the guard, the table, then the normalised last entry. */
  method CalculateDTWSimilarity(s1: Option<seq<int>>, s2: Option<seq<int>>) returns (r: real)
    requires s1.Some? ==> Bounded(s1.value)
    requires s2.Some? ==> Bounded(s2.value)
    ensures r == DTWSimilarity(s1, s2)
  {
    if s1.None? || s2.None? || |s1.value| == 0 || |s2.value| == 0 {
      return 0.0;
    }
    var a, b := s1.value, s2.value;
    var dtw := DTWTable(a, b);
    var last := dtw[|a|, |b|];
    DistanceFinite(a, b, |a|, |b|);
    r := 1.0 / (1.0 + last.n as real);
  }

  /** Entries off row and column 0 (and (0, 0)) are finite and non-negative; the rest of the border is infinite. */
  lemma {:induction false} DistanceFinite(a: seq<int>, b: seq<int>, i: nat, j: nat)
    requires i <= |a| && j <= |b|
    ensures (i == 0) == (j == 0) ==> D(a, b, i, j).Fin? && D(a, b, i, j).n >= 0
    ensures (i == 0) != (j == 0) ==> D(a, b, i, j) == Inf
    decreases i + j
  {
    if i > 0 && j > 0 {
      DistanceFinite(a, b, i - 1, j - 1);
      DistanceFinite(a, b, i - 1, j);
      DistanceFinite(a, b, i, j - 1);
      var up, left, diagonal := D(a, b, i - 1, j), D(a, b, i, j - 1), D(a, b, i - 1, j - 1);
      MinExtChoice(up, left);
      MinExtChoice(MinExt(up, left), diagonal);
    }
  }

  /** Two steps of the recurrence agree when their first two predecessors are swapped. */
  lemma StepCommutes(p: Ext, q: Ext, cost: nat, x: Ext, y: Ext, z: Ext, x': Ext, y': Ext, z': Ext)
    requires p == AddCost(cost, MinExt(MinExt(x, y), z))
    requires q == AddCost(cost, MinExt(MinExt(x', y'), z'))
    requires x' == y && y' == x && z' == z
    ensures p == q
  {
  }

  /** One step of the recurrence off the border. */
  lemma DUnfold(a: seq<int>, b: seq<int>, i: nat, j: nat)
    requires 0 < i <= |a| && 0 < j <= |b|
    ensures D(a, b, i, j) ==
      AddCost(Abs(a[i - 1] - b[j - 1]), MinExt(MinExt(D(a, b, i - 1, j), D(a, b, i, j - 1)), D(a, b, i - 1, j - 1)))
  {
  }

  /** The warping distance does not depend on which sequence comes first. */
  lemma {:induction false} DistanceSymmetric(a: seq<int>, b: seq<int>, i: nat, j: nat)
    requires i <= |a| && j <= |b|
    ensures D(a, b, i, j) == D(b, a, j, i)
    decreases i + j
  {
    if i > 0 && j > 0 {
      DistanceSymmetric(a, b, i - 1, j - 1);
      DistanceSymmetric(a, b, i - 1, j);
      DistanceSymmetric(a, b, i, j - 1);
      SymmetricStep(a, b, i, j);
    }
  }

  /** The recurrence maps symmetric predecessors to symmetric entries. */
  lemma SymmetricStep(a: seq<int>, b: seq<int>, i: nat, j: nat)
    requires 0 < i <= |a| && 0 < j <= |b|
    requires D(a, b, i - 1, j) == D(b, a, j, i - 1)
    requires D(a, b, i, j - 1) == D(b, a, j - 1, i)
    requires D(a, b, i - 1, j - 1) == D(b, a, j - 1, i - 1)
    ensures D(a, b, i, j) == D(b, a, j, i)
  {
    AbsSwap(a[i - 1], b[j - 1]);
    DUnfold(a, b, i, j);
    DUnfold(b, a, j, i);
    StepCommutes(D(a, b, i, j), D(b, a, j, i), Abs(a[i - 1] - b[j - 1]),
                 D(a, b, i - 1, j), D(a, b, i, j - 1), D(a, b, i - 1, j - 1),
                 D(b, a, j - 1, i), D(b, a, j, i - 1), D(b, a, j - 1, i - 1));
  }

  /** The local cost does not depend on the order of the sequences. */
  lemma AbsSwap(x: int, y: int)
    ensures Abs(x - y) == Abs(y - x)
  {
  }

  /** A sequence is at distance 0 from itself along the diagonal. */
  lemma {:induction false} DistanceSelf(a: seq<int>, i: nat)
    requires i <= |a|
    ensures D(a, a, i, i) == Fin(0)
  {
    if i > 0 {
      DistanceSelf(a, i - 1);
      DistanceFinite(a, a, i - 1, i);
      DistanceFinite(a, a, i, i - 1);
    }
  }

  /** The similarity is 0 for a missing or empty input and otherwise in (0, 1]. */
  lemma DTWSimilarityRange(s1: Option<seq<int>>, s2: Option<seq<int>>)
    ensures s1.None? || s2.None? || |s1.value| == 0 || |s2.value| == 0 ==> DTWSimilarity(s1, s2) == 0.0
    ensures s1.Some? && s2.Some? && |s1.value| > 0 && |s2.value| > 0 ==> 0.0 < DTWSimilarity(s1, s2) <= 1.0
  {
    if s1.Some? && s2.Some? && |s1.value| > 0 && |s2.value| > 0 {
      DistanceFinite(s1.value, s2.value, |s1.value|, |s2.value|);
      var d := D(s1.value, s2.value, |s1.value|, |s2.value|).n as real;
      assert 1.0 <= 1.0 + d;
    }
  }

  lemma DTWSimilaritySymmetric(s1: Option<seq<int>>, s2: Option<seq<int>>)
    ensures DTWSimilarity(s1, s2) == DTWSimilarity(s2, s1)
  {
    if s1.Some? && s2.Some? && |s1.value| > 0 && |s2.value| > 0 {
      DistanceSymmetric(s1.value, s2.value, |s1.value|, |s2.value|);
    }
  }

  /** Identical non-empty sequences have similarity exactly 1. */
  lemma DTWSimilaritySelf(s: seq<int>)
    requires |s| > 0
    ensures DTWSimilarity(Some(s), Some(s)) == 1.0
  {
    DistanceSelf(s, |s|);
  }
}
