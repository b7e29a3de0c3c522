/**
 * The fixed table of named scales and the degree/octave <-> MIDI pitch
 * arithmetic (com.groovegarden.music.Scale).
 */
module Scale {
  import opened JavaInt

  /** An immutable scale: a name, semitone offsets from the root, the root MIDI pitch. */
  datatype Scale = Scale(name: string, intervals: seq<int>, rootNote: int)

  const Dorian := Scale("C Dorian", [0, 2, 3, 5, 7, 9, 10], 60)
  const Ionian := Scale("C Ionian", [0, 2, 4, 5, 7, 9, 11], 60)
  const Minor := Scale("A Minor", [0, 2, 3, 5, 7, 8, 10], 57)

  /** The registry filled once by the static initialiser. */
  const PredefinedScales: map<string, Scale> :=
    map["C Dorian" := Dorian, "C Ionian" := Ionian, "A Minor" := Minor]

  /**
   * The shape every predefined scale has: a non-empty, strictly increasing
   * list of offsets in [0, 12) that starts at 0.
   */
  ghost predicate WellFormed(s: Scale) {
    && |s.intervals| > 0
    && s.intervals[0] == 0
    && (forall i :: 0 <= i < |s.intervals| ==> 0 <= s.intervals[i] < 12)
    && (forall i, j :: 0 <= i < j < |s.intervals| ==> s.intervals[i] < s.intervals[j])
  }

  /** The registry lookup; an unknown name falls back to C Dorian. */
  function GetScale(name: string): (s: Scale)
    ensures s in PredefinedScales.Values
    ensures s.name == name || (name !in PredefinedScales && s == Dorian)
  {
    if name in PredefinedScales then PredefinedScales[name] else PredefinedScales["C Dorian"]
  }

  function Size(s: Scale): nat {
    |s.intervals|
  }

  /** A copy of the interval list (value semantics: the caller's copy is independent). */
  function ScaleDegrees(s: Scale): (ds: seq<int>)
    ensures |ds| == Size(s)
    ensures forall i :: 0 <= i < |ds| ==> ds[i] == s.intervals[i]
  {
    s.intervals
  }

  /**
   * Pitch of a degree in an octave: the degree's interval above the root,
   * shifted by whole octaves; a degree outside [0, Size) gives the root.
   */
  function GetNote(s: Scale, degree: int, octave: int): (p: int)
    ensures 0 <= degree < |s.intervals| ==> p - s.rootNote - 12 * octave == s.intervals[degree]
    ensures !(0 <= degree < |s.intervals|) ==> p == s.rootNote
  {
    if degree < 0 || degree >= |s.intervals| then s.rootNote
    else s.rootNote + (s.intervals[degree] + octave * 12)
  }

  /**
   * Pitch-class membership with Java's truncating remainder. At or above the
   * root this is ordinary pitch-class membership.
   */
  function IsInScale(s: Scale, midiNote: int): (b: bool)
    ensures midiNote >= s.rootNote ==> (b <==> (midiNote - s.rootNote) % 12 in s.intervals)
  {
    var relativeNote := midiNote - s.rootNote;
    JavaRem(relativeNote, 12) in s.intervals
  }

  /** The first index at or after `from` holding `x`, or -1 when there is none. */
  function FirstIndexFrom(xs: seq<int>, x: int, from: nat): (k: int)
    requires from <= |xs|
    decreases |xs| - from
    ensures k == -1 || from <= k < |xs|
    ensures k == -1 <==> x !in xs[from..]
    ensures k != -1 ==> xs[k] == x && x !in xs[from..k]
  {
    if from == |xs| then -1
    else if xs[from] == x then from
    else
      assert xs[from..] == [xs[from]] + xs[from + 1..];
      var k := FirstIndexFrom(xs, x, from + 1);
      assert k != -1 ==> xs[from..k] == [xs[from]] + xs[from + 1..k];
      k
  }

  /** The degree `GetDegree` returns for a pitch. */
  function DegreeOf(s: Scale, midiNote: int): int {
    FirstIndexFrom(s.intervals, JavaRem(midiNote - s.rootNote, 12), 0)
  }

  /**
   * The index loop of getDegree: the first degree whose offset equals the
   * truncated remainder, or -1; -1 exactly when the pitch is not in the scale.
   */
  method GetDegree(s: Scale, midiNote: int) returns (d: int)
    ensures d == DegreeOf(s, midiNote)
    ensures d == -1 <==> !IsInScale(s, midiNote)
    ensures d != -1 ==> 0 <= d < Size(s) && s.intervals[d] == JavaRem(midiNote - s.rootNote, 12)
  {
    var relativeNote := midiNote - s.rootNote;
    var degree := JavaRem(relativeNote, 12);
    var i := 0;
    while i < |s.intervals|
      invariant 0 <= i <= |s.intervals|
      invariant FirstIndexFrom(s.intervals, degree, i) == FirstIndexFrom(s.intervals, degree, 0)
    {
      if s.intervals[i] == degree {
        return i;
      }
      i := i + 1;
    }
    assert s.intervals[0..] == s.intervals;
    return -1;
  }

  lemma {:induction false} PredefinedWellFormed(s: Scale)
    requires s in PredefinedScales.Values
    ensures WellFormed(s)
  {
    assert s == Dorian || s == Ionian || s == Minor;
  }

  /** getScale of an unknown name is C Dorian, whose degree 2 at octave 0 is 63. */
  lemma UnknownNameIsDorian(name: string)
    requires name !in {"C Dorian", "C Ionian", "A Minor"}
    ensures GetScale(name).rootNote == 60
    ensures GetScale(name).intervals == [0, 2, 3, 5, 7, 9, 10]
    ensures GetNote(GetScale(name), 2, 0) == 63
  {
    assert name !in PredefinedScales;
  }

  /** An in-range degree is the root plus its offset plus twelve per octave. */
  lemma NoteInRange(s: Scale, degree: int, octave: int)
    requires 0 <= degree < Size(s)
    ensures GetNote(s, degree, octave) - 12 * octave == s.rootNote + s.intervals[degree]
  {
  }

  /** An out-of-range degree is the root in every octave. */
  lemma NoteOutOfRange(s: Scale, degree: int, o1: int, o2: int)
    requires degree < 0 || degree >= Size(s)
    ensures GetNote(s, degree, o1) == GetNote(s, degree, o2) == s.rootNote
  {
  }

  lemma {:induction false} FirstIndexOfIncreasing(xs: seq<int>, d: nat, from: nat)
    requires from <= d < |xs|
    requires forall i, j :: 0 <= i < j < |xs| ==> xs[i] < xs[j]
    ensures FirstIndexFrom(xs, xs[d], from) == d
    decreases d - from
  {
    if from < d {
      FirstIndexOfIncreasing(xs, d, from + 1);
    }
  }

  /** For a well-formed scale, getDegree inverts getNote on non-negative octaves. */
  lemma {:induction false} DegreeOfNote(s: Scale, degree: int, octave: int)
    requires WellFormed(s)
    requires 0 <= degree < Size(s) && octave >= 0
    ensures IsInScale(s, GetNote(s, degree, octave))
    ensures DegreeOf(s, GetNote(s, degree, octave)) == degree
  {
    var rel := GetNote(s, degree, octave) - s.rootNote;
    assert rel == s.intervals[degree] + 12 * octave;
    assert JavaRem(rel, 12) == rel % 12;
    assert rel % 12 == s.intervals[degree];
    FirstIndexOfIncreasing(s.intervals, degree, 0);
  }

  /**
   * Below the root the truncated remainder is never positive, so only
   * offset 0 can match: the pitch is in the scale iff it is a whole number
   * of octaves below the root.
   */
  lemma {:induction false} BelowRootInScale(s: Scale, midiNote: int)
    requires WellFormed(s)
    requires midiNote < s.rootNote
    ensures IsInScale(s, midiNote) <==> (s.rootNote - midiNote) % 12 == 0
  {
    var rel := midiNote - s.rootNote;
    var r := JavaRem(rel, 12);
    assert -12 < r <= 0;
    assert r == -((s.rootNote - midiNote) % 12);
    if r == 0 {
      assert s.intervals[0] == r;
    } else {
      forall i | 0 <= i < |s.intervals| ensures s.intervals[i] != r { }
    }
  }
}
