/**
 * The bucket-fill step pattern generator (com.groovegarden.algo.EuclideanRhythm).
 *
 * Each of the `pulses` buckets writes a run of `size` pulses followed by one
 * rest, where the first `steps % pulses` buckets are one longer; everything is
 * cut off at `steps`.
 */
module Euclidean {
  import opened JavaInt

  function Repeat(b: bool, n: nat): (r: seq<bool>)
    ensures |r| == n && forall k :: 0 <= k < n ==> r[k] == b
  {
    seq(n, _ => b)
  }

  /** The length of bucket `i`: `steps / pulses`, plus one for the first `steps % pulses` buckets. */
  function BucketSize(steps: nat, pulses: nat, i: nat): nat
    requires pulses > 0
  {
    steps / pulses + (if i < steps % pulses then 1 else 0)
  }

  /** What buckets 0 .. i-1 write, before the cut at `steps`. */
  function Written(steps: nat, pulses: nat, i: nat): seq<bool>
    requires pulses > 0
  {
    if i == 0 then []
    else Written(steps, pulses, i - 1) + Repeat(true, BucketSize(steps, pulses, i - 1)) + [false]
  }

  /** `w` cut off or padded with rests (the array's initial zeros) to length `n`. */
  function Fit(w: seq<bool>, n: nat): (r: seq<bool>)
    ensures |r| == n
    ensures forall k :: 0 <= k < n ==> r[k] == (k < |w| && w[k])
  {
    if |w| >= n then w[..n] else w + Repeat(false, n - |w|)
  }

  /** The pattern `generate()` returns for the stored `steps` and `pulses`. */
  function Layout(steps: nat, pulses: int): seq<bool> {
    if pulses == 0 then Repeat(false, steps)
    else if pulses == steps then Repeat(true, steps)
    else if pulses < 0 then Repeat(false, steps)
    else Fit(Written(steps, pulses, pulses), steps)
  }

  class EuclideanRhythm {
    var steps: int
    var pulses: int

    constructor (steps: int, pulses: int)
      ensures this.steps == steps && this.pulses == Min(pulses, steps)
    {
      this.steps := steps;
      this.pulses := Min(pulses, steps);
    }

    /** Does not re-clamp the stored pulse count. */
    method SetSteps(steps: int)
      modifies this
      ensures this.steps == steps && pulses == old(pulses)
    {
      this.steps := steps;
    }

    method SetPulses(pulses: int)
      modifies this
      ensures this.pulses == Min(pulses, steps) && steps == old(steps)
    {
      this.pulses := Min(pulses, steps);
    }

    /** The two loops of generate(): fill the int buckets, then convert to booleans. */
    method Generate() returns (result: array<bool>)
      requires steps >= 0
      ensures fresh(result)
      ensures result.Length == steps
      ensures result[..] == Layout(steps, pulses)
    {
      var n: nat, p := steps, pulses;
      ghost var expected := Layout(n, p);
      if p == 0 {
        result := new bool[n](_ => false);
        assert result[..] == expected;
        return;
      }
      if p == n {
        result := new bool[n](_ => false);
        var i := 0;
        while i < n
          invariant 0 <= i <= n
          invariant forall k :: 0 <= k < i ==> result[k]
        {
          result[i] := true;
          i := i + 1;
        }
        assert result[..] == expected;
        return;
      }
      var buckets := new int[n](_ => 0);
      if p > 0 {
        FillBuckets(buckets, p);
      }
      assert forall k :: 0 <= k < n ==> buckets[k] == (if expected[k] then 1 else 0);
      result := new bool[n](_ => false);
      var i := 0;
      while i < n
        invariant 0 <= i <= n
        invariant forall k :: 0 <= k < i ==> result[k] == (buckets[k] == 1)
        invariant forall k :: 0 <= k < n ==> buckets[k] == (if expected[k] then 1 else 0)
      {
        result[i] := buckets[i] == 1;
        i := i + 1;
      }
      assert |expected| == n;
      assert forall k :: 0 <= k < n ==> result[k] == expected[k];
      assert result[..] == expected;
    }
  }

  /**
   * The bucket loop of generate() for a positive pulse count: writes each
   * bucket's run of 1s and its closing 0 into the zeroed array, stopping at
   * its end.
   */
  method FillBuckets(buckets: array<int>, pulses: nat)
    requires pulses > 0
    requires forall k :: 0 <= k < buckets.Length ==> buckets[k] == 0
    modifies buckets
    ensures forall k :: 0 <= k < buckets.Length ==>
      buckets[k] == (if Fit(Written(buckets.Length, pulses, pulses), buckets.Length)[k] then 1 else 0)
  {
    var steps := buckets.Length;
    var bucketSize := steps / pulses;
    var remainder := steps % pulses;
    var currentBucket := 0;
    var i := 0;
    while i < pulses && currentBucket < steps
      invariant 0 <= i <= pulses
      invariant currentBucket == Min(steps, |Written(steps, pulses, i)|)
      invariant forall k :: 0 <= k < currentBucket ==>
        buckets[k] == (if Written(steps, pulses, i)[k] then 1 else 0)
      invariant forall k :: currentBucket <= k < steps ==> buckets[k] == 0
    {
      ghost var before := Written(steps, pulses, i);
      var size := bucketSize + (if i < remainder then 1 else 0);
      assert size == BucketSize(steps, pulses, i);
      var j := 0;
      while j < size && currentBucket < steps
        invariant 0 <= j <= size
        invariant currentBucket == Min(steps, |before| + j)
        invariant forall k :: 0 <= k < currentBucket ==>
          buckets[k] == (if k < |before| then (if before[k] then 1 else 0) else 1)
        invariant forall k :: currentBucket <= k < steps ==> buckets[k] == 0
      {
        buckets[currentBucket] := 1;
        currentBucket := currentBucket + 1;
        j := j + 1;
      }
      if currentBucket < steps {
        buckets[currentBucket] := 0;
        currentBucket := currentBucket + 1;
      }
      i := i + 1;
    }
    WrittenPrefix(steps, pulses, i, pulses);
  }

  /** The static generate(steps, pulses): a fresh generator's pattern. */
  method GenerateFor(steps: int, pulses: int) returns (result: array<bool>)
    requires steps >= 0
    ensures fresh(result)
    ensures result.Length == steps
    ensures result[..] == Layout(steps, Min(pulses, steps))
  {
    var rhythm := new EuclideanRhythm(steps, pulses);
    result := rhythm.Generate();
  }

  lemma {:induction false} WrittenPrefix(steps: nat, pulses: nat, i: nat, j: nat)
    requires pulses > 0 && i <= j
    ensures |Written(steps, pulses, i)| <= |Written(steps, pulses, j)|
    ensures forall k :: 0 <= k < |Written(steps, pulses, i)| ==>
      Written(steps, pulses, j)[k] == Written(steps, pulses, i)[k]
    decreases j - i
  {
    if i < j {
      WrittenPrefix(steps, pulses, i, j - 1);
    }
  }

  /** The pattern has exactly `steps` entries. */
  lemma LayoutLength(steps: nat, pulses: int)
    ensures |Layout(steps, pulses)| == steps
  {
  }

  /** No pulses gives only rests; as many pulses as steps gives only pulses. */
  lemma LayoutEdgeCases(steps: nat, pulses: int)
    ensures pulses <= 0 ==> forall k :: 0 <= k < steps ==> !Layout(steps, pulses)[k]
    ensures pulses == steps ==> forall k :: 0 <= k < steps ==> Layout(steps, pulses)[k]
  {
  }

  /** Any request of at least `steps` pulses is clamped and gives only pulses. */
  lemma {:induction false} ClampedRequestAllPulses(steps: nat, requested: int)
    requires requested >= steps
    ensures forall k :: 0 <= k < steps ==> Layout(steps, Min(requested, steps))[k]
  {
    assert Min(requested, steps) == steps;
  }

  /** The length of the written prefix: every bucket adds its size plus one rest. */
  lemma {:induction false} WrittenLength(steps: nat, pulses: nat, i: nat)
    requires pulses > 0
    ensures |Written(steps, pulses, i)| == i * (steps / pulses + 1) + Min(i, steps % pulses)
  {
    if i > 0 {
      WrittenLength(steps, pulses, i - 1);
    }
  }

  /** Runs of pulses separated by single rests: the first entry is a pulse, no two rests touch. */
  ghost predicate RestsIsolated(w: seq<bool>) {
    && (|w| > 0 ==> w[0])
    && forall k :: 0 <= k < |w| - 1 ==> w[k] || w[k + 1]
  }

  lemma {:induction false} WrittenRestsIsolated(steps: nat, pulses: nat, i: nat)
    requires 0 < pulses <= steps
    ensures RestsIsolated(Written(steps, pulses, i))
    ensures i > 0 ==> !Written(steps, pulses, i)[|Written(steps, pulses, i)| - 1]
  {
    if i > 0 {
      WrittenRestsIsolated(steps, pulses, i - 1);
      var w := Written(steps, pulses, i - 1);
      var run := Repeat(true, BucketSize(steps, pulses, i - 1));
      assert steps / pulses >= 1 by {
        assert pulses * 1 <= steps;
      }
      var w' := Written(steps, pulses, i);
      assert w' == w + run + [false];
      forall k | 0 <= k < |w'| - 1
        ensures w'[k] || w'[k + 1]
      {
        if k < |w| - 1 {
          assert w'[k] == w[k] && w'[k + 1] == w[k + 1];
        } else if k == |w| - 1 {
          assert w'[k + 1] == run[0];
        } else {
          assert w'[k] == run[k - |w|];
        }
      }
      if |w| == 0 {
        assert w'[0] == run[0];
      } else {
        assert w'[0] == w[0];
      }
    }
  }

  /**
   * For 0 < pulses < steps the pattern starts with a pulse and never has two
   * rests in a row (each bucket writes at least one pulse before its rest).
   */
  lemma {:induction false} LayoutShape(steps: nat, pulses: int)
    requires 0 < pulses < steps
    ensures Layout(steps, pulses)[0]
    ensures forall k :: 0 <= k < steps - 1 ==> Layout(steps, pulses)[k] || Layout(steps, pulses)[k + 1]
  {
    var p: nat := pulses;
    var w := Written(steps, p, p);
    WrittenLength(steps, p, p);
    WrittenRestsIsolated(steps, p, p);
    assert steps == p * (steps / p) + steps % p;
    assert |w| == steps + p by {
      assert Min(p, steps % p) == steps % p;
      assert p * (steps / p + 1) == p * (steps / p) + p;
    }
    var l := Layout(steps, pulses);
    assert l == w[..steps];
    forall k | 0 <= k < steps - 1
      ensures l[k] || l[k + 1]
    {
      assert l[k] == w[k] && l[k + 1] == w[k + 1];
    }
  }

  function CountTrue(s: seq<bool>): nat {
    if s == [] then 0 else (if s[0] then 1 else 0) + CountTrue(s[1..])
  }

  lemma {:induction false} CountTrueAppend(a: seq<bool>, b: seq<bool>)
    ensures CountTrue(a + b) == CountTrue(a) + CountTrue(b)
  {
    if a == [] {
      assert a + b == b;
    } else {
      assert (a + b)[1..] == a[1..] + b;
      CountTrueAppend(a[1..], b);
    }
  }

  /** A bucket of four pulses and a rest holds four pulses. */
  lemma BucketCount()
    ensures CountTrue([true, true, true, true, false]) == 4
  {
    var b := [true, true, true, true, false];
    assert b[1..] == [true, true, true, false];
    assert b[1..][1..] == [true, true, false];
    assert b[1..][1..][1..] == [true, false];
    assert b[1..][1..][1..][1..] == [false];
    assert b[1..][1..][1..][1..][1..] == [];
  }

  /** The default rhythm of the engine: generate(16, 4) is 1111011110111101, thirteen pulses. */
  lemma SixteenFour()
    ensures Layout(16, 4) == [true, true, true, true, false, true, true, true, true, false,
                              true, true, true, true, false, true]
    ensures CountTrue(Layout(16, 4)) == 13
  {
    SixteenFourLayout();
    var bucket := [true, true, true, true, false];
    assert Layout(16, 4) == bucket + bucket + bucket + [true];
    BucketCount();
    CountTrueAppend(bucket, bucket);
    CountTrueAppend(bucket + bucket, bucket);
    CountTrueAppend(bucket + bucket + bucket, [true]);
    assert CountTrue([true]) == 1 by {
      assert [true][1..] == [];
    }
  }

  lemma SixteenFourLayout()
    ensures Layout(16, 4) == [true, true, true, true, false, true, true, true, true, false,
                              true, true, true, true, false, true]
  {
    var bucket := [true, true, true, true, false];
    assert Repeat(true, 4) == [true, true, true, true];
    assert Written(16, 4, 1) == bucket;
    assert Written(16, 4, 2) == bucket + bucket;
    assert Written(16, 4, 3) == bucket + bucket + bucket;
    assert Written(16, 4, 4) == bucket + bucket + bucket + bucket;
    assert Layout(16, 4) == (bucket + bucket + bucket)[..15] + [true];
  }
}
