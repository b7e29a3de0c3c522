/**
 * The live score panel (com.groovegarden.score.ScoreEngine): three bounded
 * histories fed by the playback (pitches, rhythm values and 16-step bars)
 * and three scores computed from snapshots of them. Diversity takes the
 * Shannon entropy of the two lists, flow rewards a moderate cosine
 * similarity between the last two bars, and harmony counts the pitches
 * C Dorian accepts. Doubles are exact reals; the entropy and the double
 * value of the symbolic cosine are parameters.
 */
module Score {
  import opened JavaInt
  import Scale
  import Similarity

  const MaxHistory := 100
  const BarLength := 16
  const MaxBars := 10

  /** Every value cast to int as Java's (int) does. */
  function Truncated(values: seq<real>): (r: seq<int>)
    ensures |r| == |values|
    ensures forall k :: 0 <= k < |values| ==> r[k] == DoubleToInt(values[k])
  {
    if |values| == 0 then [] else Truncated(values[..|values| - 1]) + [DoubleToInt(values[|values| - 1])]
  }

  /** The contents of each stored bar, oldest first. */
  function Contents(bars: seq<array<real>>): (r: seq<seq<real>>)
    reads bars
    ensures |r| == |bars|
    ensures forall k :: 0 <= k < |bars| ==> r[k] == bars[k][..]
  {
    if |bars| == 0 then [] else Contents(bars[..|bars| - 1]) + [bars[|bars| - 1][..]]
  }

  // ---------------------------------------------------------------------
  // The three scores

  /** calculateDiversity: 0 when either list is empty, else 50 per bit of entropy, capped at 100. */
  function Diversity(pitches: seq<real>, rhythms: seq<real>, entropy: seq<real> -> real): (d: real)
    ensures |pitches| == 0 || |rhythms| == 0 ==> d == 0.0
    ensures d <= 100.0
    ensures |pitches| > 0 && |rhythms| > 0 && entropy(pitches) + entropy(rhythms) <= 2.0 ==>
      d == (entropy(pitches) + entropy(rhythms)) * 50.0
  {
    if |pitches| == 0 || |rhythms| == 0 then 0.0
    else MinReal(100.0, (entropy(pitches) + entropy(rhythms)) * 50.0)
  }

  /** 100 at similarity 0.5, falling by 2 per hundredth away from it, never below 0. */
  function FlowScore(similarity: real): real {
    MaxReal(0.0, 100.0 - AbsReal(similarity - 0.5) * 200.0)
  }

  /**
   * calculateFlow on a snapshot of the bars: 0 with fewer than two, else
   * the score of the cosine between the truncated last and next-to-last
   * bars, read as a double by `value`.
   */
  function Flow(bars: seq<seq<real>>, value: Similarity.Cosine -> real): real {
    if |bars| < 2 then 0.0
    else
      var current, previous := Truncated(bars[|bars| - 1]), Truncated(bars[|bars| - 2]);
      FlowScore(value(Similarity.CosineOf(Some(current), Some(previous))))
  }

  /** C Dorian accepts the int cast of the pitch. */
  predicate InDorian(pitch: real) {
    Scale.IsInScale(Scale.Dorian, DoubleToInt(pitch))
  }

  /** The number of values `accept` holds of. */
  function CountWhere(xs: seq<real>, accept: real -> bool): nat {
    if |xs| == 0 then 0
    else CountWhere(xs[..|xs| - 1], accept) + if accept(xs[|xs| - 1]) then 1 else 0
  }

  /**
   * calculateHarmony: 0 with no pitches, else the in-scale percentage plus a
   * bonus of a fifth of the rest (at most 10), capped at 100.
   */
  function Harmony(pitches: seq<real>): real {
    if |pitches| == 0 then 0.0
    else
      var percentage := CountWhere(pitches, InDorian) as real / |pitches| as real * 100.0;
      var bonus := MinReal(10.0, (100.0 - percentage) * 0.2);
      MinReal(100.0, percentage + bonus)
  }

  // ---------------------------------------------------------------------
  // The engine

  class ScoreEngine {
    var recentPitches: seq<real>
    var recentRhythms: seq<real>
    var recentBars: seq<array<real>>
    var isUpdating: bool
    var cachedDiversity: real
    var cachedFlow: real
    var cachedHarmony: real

    /** The histories stay within their bounds and hold only full bars. */
    predicate Valid()
      reads this
    {
      && |recentPitches| <= MaxHistory
      && |recentRhythms| <= MaxHistory
      && |recentBars| <= MaxBars
      && forall b :: b in recentBars ==> b.Length == BarLength
    }

    /** Empty histories and zero scores; the widgets and the scheduler are not modelled. */
    constructor ()
      ensures Valid()
      ensures recentPitches == [] && recentRhythms == [] && recentBars == []
      ensures !isUpdating
      ensures cachedDiversity == 0.0 && cachedFlow == 0.0 && cachedHarmony == 0.0
    {
      recentPitches, recentRhythms, recentBars := [], [], [];
      isUpdating := false;
      cachedDiversity, cachedFlow, cachedHarmony := 0.0, 0.0, 0.0;
    }

    /** addPitchEvent: append, dropping the oldest past 100. */
    method AddPitchEvent(pitch: real)
      requires Valid()
      modifies this`recentPitches
      ensures Valid()
      ensures recentPitches == Push(old(recentPitches), pitch, MaxHistory)
    {
      recentPitches := Push(recentPitches, pitch, MaxHistory);
    }

    /** addRhythmEvent: append, dropping the oldest past 100. */
    method AddRhythmEvent(rhythm: real)
      requires Valid()
      modifies this`recentRhythms
      ensures Valid()
      ensures recentRhythms == Push(old(recentRhythms), rhythm, MaxHistory)
    {
      recentRhythms := Push(recentRhythms, rhythm, MaxHistory);
    }

    /** addBar: a 16-step bar is stored (by reference) keeping the last ten; any other length is ignored. */
    method AddBar(bar: array<real>)
      requires Valid()
      modifies this`recentBars
      ensures Valid()
      ensures bar.Length == BarLength ==> recentBars == Push(old(recentBars), bar, MaxBars)
      ensures bar.Length != BarLength ==> recentBars == old(recentBars)
    {
      if bar.Length == BarLength {
        PushKeeps(recentBars, bar, MaxBars);
        recentBars := Push(recentBars, bar, MaxBars);
      }
    }

    /** calculateFlow: the guard, the two int-casting loops, then the score of their cosine. */
    method CalculateFlow(value: Similarity.Cosine -> real) returns (flow: real)
      ensures flow == Flow(Contents(recentBars), value)
    {
      var bars := recentBars;
      if |bars| < 2 {
        return 0.0;
      }
      var currentBar, previousBar := bars[|bars| - 1], bars[|bars| - 2];
      var currentBarList := TruncateBar(currentBar);
      var previousBarList := TruncateBar(previousBar);
      var cosine := Similarity.CalculateSimilarity(Some(currentBarList), Some(previousBarList));
      var similarity := value(cosine);
      var distance := AbsReal(similarity - 0.5);
      flow := MaxReal(0.0, 100.0 - distance * 200.0);
      ghost var contents := Contents(bars);
      assert contents[|bars| - 1] == currentBar[..] && contents[|bars| - 2] == previousBar[..];
    }

    /** calculateHarmony: the guard, then the counting loop over the pitches. */
    method CalculateHarmony() returns (harmony: real)
      ensures harmony == Harmony(recentPitches)
    {
      var pitches := recentPitches;
      if |pitches| == 0 {
        return 0.0;
      }
      var currentScale := Scale.GetScale("C Dorian");
      assert currentScale == Scale.Dorian;
      var inScaleCount := 0;
      var totalCount := |pitches|;
      var i := 0;
      while i < totalCount
        invariant 0 <= i <= totalCount
        invariant inScaleCount == CountWhere(pitches[..i], InDorian)
      {
        assert pitches[..i + 1][..i] == pitches[..i];
        var accepted := Scale.IsInScale(currentScale, DoubleToInt(pitches[i]));
        assert accepted == InDorian(pitches[..i + 1][i]);
        if accepted {
          inScaleCount := inScaleCount + 1;
        }
        i := i + 1;
      }
      assert pitches[..i] == pitches;
      var inScalePercentage := inScaleCount as real / totalCount as real * 100.0;
      var nonChordBonus := MinReal(10.0, (100.0 - inScalePercentage) * 0.2);
      harmony := MinReal(100.0, inScalePercentage + nonChordBonus);
    }

    /**
     * updateScores: nothing happens while an update is running; otherwise
     * the three scores are computed from the current histories and cached,
     * and the flag is clear again on the way out.
     */
    method UpdateScores(entropy: seq<real> -> real, value: Similarity.Cosine -> real)
      modifies this`isUpdating, this`cachedDiversity, this`cachedFlow, this`cachedHarmony
      ensures isUpdating == old(isUpdating)
      ensures old(isUpdating) ==> cachedDiversity == old(cachedDiversity) && cachedFlow == old(cachedFlow) && cachedHarmony == old(cachedHarmony)
      ensures !old(isUpdating) ==>
        && cachedDiversity == Diversity(recentPitches, recentRhythms, entropy)
        && cachedFlow == Flow(Contents(recentBars), value)
        && cachedHarmony == Harmony(recentPitches)
    {
      if isUpdating {
        return;
      }
      isUpdating := true;
      var diversity := Diversity(recentPitches, recentRhythms, entropy);
      var flow := CalculateFlow(value);
      var harmony := CalculateHarmony();
      cachedDiversity, cachedFlow, cachedHarmony := diversity, flow, harmony;
      isUpdating := false;
    }
  }

  /** The int-casting loop over one bar. */
  method TruncateBar(bar: array<real>) returns (list: seq<int>)
    ensures list == Truncated(bar[..])
  {
    list := [];
    for k := 0 to bar.Length
      invariant list == Truncated(bar[..k])
    {
      assert bar[..k + 1][..k] == bar[..k];
      list := list + [DoubleToInt(bar[k])];
    }
    assert bar[..bar.Length] == bar[..];
  }

  /** A pushed element from a set of full bars keeps every bar full. */
  lemma PushKeeps(bars: seq<array<real>>, bar: array<real>, cap: nat)
    requires |bars| <= cap && bar.Length == BarLength
    requires forall b :: b in bars ==> b.Length == BarLength
    ensures forall b :: b in Push(bars, bar, cap) ==> b.Length == BarLength
  {
    var t := bars + [bar];
    forall b | b in Push(bars, bar, cap)
      ensures b.Length == BarLength
    {
      assert b in t;
    }
  }

  // ---------------------------------------------------------------------
  // Properties

  /** The three guards: an empty list gives 0 diversity, fewer than two bars 0 flow, no pitches 0 harmony. */
  lemma EmptyScores(pitches: seq<real>, rhythms: seq<real>, bars: seq<seq<real>>, entropy: seq<real> -> real, value: Similarity.Cosine -> real)
    ensures |pitches| == 0 || |rhythms| == 0 ==> Diversity(pitches, rhythms, entropy) == 0.0
    ensures |bars| < 2 ==> Flow(bars, value) == 0.0
    ensures |pitches| == 0 ==> Harmony(pitches) == 0.0
  {
  }

  /** With entropies that are never negative (as Shannon entropy is), diversity lies in [0, 100]. */
  lemma DiversityRange(pitches: seq<real>, rhythms: seq<real>, entropy: seq<real> -> real)
    requires entropy(pitches) >= 0.0 && entropy(rhythms) >= 0.0
    ensures 0.0 <= Diversity(pitches, rhythms, entropy) <= 100.0
  {
  }

  /** The flow score lies in [0, 100], is 100 exactly at similarity 0.5, and is 0 at or beyond 0 and 1. */
  lemma FlowScoreRange(similarity: real)
    ensures 0.0 <= FlowScore(similarity) <= 100.0
    ensures FlowScore(similarity) == 100.0 <==> similarity == 0.5
    ensures similarity <= 0.0 || similarity >= 1.0 ==> FlowScore(similarity) == 0.0
  {
  }

  /** Flow reads only the last two bars of the snapshot. */
  lemma FlowLastTwo(bars: seq<seq<real>>, value: Similarity.Cosine -> real)
    requires |bars| >= 2
    ensures Flow(bars, value) == Flow(bars[|bars| - 2..], value)
  {
    var last := bars[|bars| - 2..];
    assert last[|last| - 1] == bars[|bars| - 1] && last[|last| - 2] == bars[|bars| - 2];
  }

  /** Two bars whose casts have a zero prefix give similarity 0 and hence flow 0. */
  lemma SilentBarsNoFlow(bars: seq<seq<real>>, value: Similarity.Cosine -> real)
    requires |bars| >= 2 && value(Similarity.Zero) == 0.0
    requires forall x :: x in bars[|bars| - 1] ==> DoubleToInt(x) == 0
    ensures Flow(bars, value) == 0.0
  {
    var current, previous := Truncated(bars[|bars| - 1]), Truncated(bars[|bars| - 2]);
    assert forall k :: 0 <= k < |current| ==> current[k] == 0;
    Similarity.CosineZero(Some(current), Some(previous));
  }

  /** The count is at most the length; it is the length iff `accept` holds of every value and 0 iff of none. */
  lemma {:induction false} CountWhereBounds(xs: seq<real>, accept: real -> bool)
    ensures CountWhere(xs, accept) <= |xs|
    ensures CountWhere(xs, accept) == |xs| <==> forall k :: 0 <= k < |xs| ==> accept(xs[k])
    ensures CountWhere(xs, accept) == 0 <==> forall k :: 0 <= k < |xs| ==> !accept(xs[k])
  {
    if |xs| > 0 {
      var front := xs[..|xs| - 1];
      CountWhereBounds(front, accept);
      assert forall k :: 0 <= k < |front| ==> front[k] == xs[k];
    }
  }

  /** Harmony lies in [0, 100]; it is 100 when every pitch is in C Dorian and 10 when none is. */
  lemma HarmonyRange(pitches: seq<real>)
    ensures 0.0 <= Harmony(pitches) <= 100.0
    ensures |pitches| > 0 && (forall k :: 0 <= k < |pitches| ==> InDorian(pitches[k])) ==> Harmony(pitches) == 100.0
    ensures |pitches| > 0 && (forall k :: 0 <= k < |pitches| ==> !InDorian(pitches[k])) ==> Harmony(pitches) == 10.0
  {
    if |pitches| > 0 {
      CountWhereBounds(pitches, InDorian);
      var count, total := CountWhere(pitches, InDorian) as real, |pitches| as real;
      FractionRange(count, total);
    }
  }

  /** A count out of a positive total is a fraction in [0, 1]. */
  lemma FractionRange(count: real, total: real)
    requires 0.0 <= count <= total && total > 0.0
    ensures 0.0 <= count / total <= 1.0
    ensures count == total ==> count / total == 1.0
  {
    assert count / total * total == count;
  }
}
