/**
 * Java's integer and conversion semantics that the model needs, written out
 * because Dafny's own `/` and `%` are Euclidean and its integers are unbounded.
 */
module JavaInt {

  datatype Option<T> = None | Some(value: T)

  /** Java's `a / b` on ints: the quotient truncated toward zero. */
  function JavaDiv(a: int, b: int): (q: int)
    requires b != 0
    ensures b > 0 && a >= 0 ==> q == a / b
    ensures b > 0 ==> (if a >= 0 then 0 <= a - q * b < b else -b < a - q * b <= 0)
  {
    var q0 := (if a >= 0 then a else -a) / (if b >= 0 then b else -b);
    if (a >= 0) == (b > 0) then q0 else -q0
  }

  /**
   * Java's `a % b` on ints: the remainder takes the sign of the dividend,
   * so that `JavaDiv(a, b) * b + JavaRem(a, b) == a`.
   */
  function JavaRem(a: int, b: int): (r: int)
    requires b != 0
    ensures JavaDiv(a, b) * b + r == a
    ensures b > 0 && a >= 0 ==> r == a % b
    ensures b > 0 ==> (if a >= 0 then 0 <= r < b else -b < r <= 0)
  {
    a - JavaDiv(a, b) * b
  }

  /** Java's `(int) x` for a double `x` in int range: truncation toward zero. */
  function TruncateReal(x: real): (i: int)
    ensures x >= 0.0 ==> i as real <= x < i as real + 1.0
    ensures x < 0.0 ==> i as real - 1.0 < x <= i as real
  {
    if x >= 0.0 then x.Floor else -((-x).Floor)
  }

  function Max(a: int, b: int): (m: int)
    ensures m >= a && m >= b && (m == a || m == b)
  {
    if a >= b then a else b
  }

  function Min(a: int, b: int): (m: int)
    ensures m <= a && m <= b && (m == a || m == b)
  {
    if a <= b then a else b
  }

  /**
   * Java's (int) cast of a double: truncation toward zero, saturating at
   * the ends of the int range.
   */
  function DoubleToInt(x: real): (i: int)
    ensures -0x8000_0000 <= i <= 0x7FFF_FFFF
    ensures -0x8000_0000 as real <= x < 0x8000_0000 as real ==> i == TruncateReal(x)
    ensures x >= 0x8000_0000 as real ==> i == 0x7FFF_FFFF
    ensures x < -0x8000_0000 as real ==> i == -0x8000_0000
  {
    var t := TruncateReal(x);
    if t < -0x8000_0000 then -0x8000_0000 else if t > 0x7FFF_FFFF then 0x7FFF_FFFF else t
  }

  function MinReal(a: real, b: real): (m: real)
    ensures m <= a && m <= b && (m == a || m == b)
  {
    if a <= b then a else b
  }

  function MaxReal(a: real, b: real): (m: real)
    ensures m >= a && m >= b && (m == a || m == b)
  {
    if a >= b then a else b
  }

  function AbsReal(x: real): (r: real)
    ensures r >= 0.0 && (r == x || r == -x)
  {
    if x >= 0.0 then x else -x
  }

  function Abs(x: int): (r: nat)
    ensures r == x || r == -x
  {
    if x >= 0 then x else -x
  }

  /**
   * A list kept to at most `cap` entries by `list.add(x)` followed by
   * `list.remove(0)` when the size then exceeds `cap`.
   */
  function Push<T>(xs: seq<T>, x: T, cap: nat): (ys: seq<T>)
    requires |xs| <= cap
    ensures |ys| == if |xs| < cap then |xs| + 1 else cap
    ensures ys == LastN(xs + [x], cap)
  {
    var t := xs + [x];
    if |t| > cap then t[1..] else t
  }

  /**
   * The list is a sliding window: after a push it ends with the new entry,
   * the entries before it are the newest ones of the old list, and nothing
   * is dropped while there is room.
   */
  lemma PushWindow<T>(xs: seq<T>, x: T, cap: nat)
    requires 0 < cap && |xs| <= cap
    ensures var ys := Push(xs, x, cap);
      && |ys| > 0 && ys[|ys| - 1] == x
      && ys[..|ys| - 1] == xs[|xs| + 1 - |ys|..]
      && (|xs| < cap ==> ys == xs + [x])
  {
    var ys := Push(xs, x, cap);
    if |xs| == cap {
      assert ys == (xs + [x])[1..];
      assert ys[..|ys| - 1] == xs[1..];
    } else {
      assert ys[..|ys| - 1] == xs;
    }
  }

  /** The last n elements of s (all of s when it is shorter). */
  function LastN<T>(s: seq<T>, n: nat): (r: seq<T>)
    ensures |r| == Min(|s|, n)
  {
    if |s| <= n then s else s[|s| - n..]
  }

  /**
   * A bounded history fed one element at a time holds exactly the last
   * `cap` elements of everything it was fed: pushing onto the window of a
   * stream is the window of the longer stream.
   */
  lemma PushLast<T>(stream: seq<T>, x: T, cap: nat)
    ensures Push(LastN(stream, cap), x, cap) == LastN(stream + [x], cap)
  {
  }

  /** Concatenation regroups freely; the event loops append one part at a time. */
  lemma AppendAssoc<T>(a: seq<T>, b: seq<T>, c: seq<T>)
    ensures a + b + c == a + (b + c)
  {
  }
}
