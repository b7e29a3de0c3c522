/**
 * The order-N Markov melody model (com.groovegarden.algo.MarkovMelody).
 *
 * The Java class keys its table by the comma-joined string of a context; the
 * join is injective for a fixed order, so the model keys it by the context
 * itself, a sequence of `order` degrees.
 */
module Markov {
  import opened JavaInt

  /** Context -> successor -> number of times the successor followed the context. */
  type Table = map<seq<int>, map<int, int>>

  /** The count stored for (c, x), 0 when absent (getOrDefault). */
  function CountIn(t: Table, c: seq<int>, x: int): int {
    if c in t && x in t[c] then t[c][x] else 0
  }

  /** One `transitions.put(next, getOrDefault(next, 0) + 1)` on the context's row. */
  function Record(t: Table, c: seq<int>, x: int): Table
  {
    var row := if c in t then t[c] else map[];
    t[c := row[x := (if x in row then row[x] else 0) + 1]]
  }

  /** The table after the first k iterations of the build loop. */
  function TableUpTo(d: seq<int>, order: nat, k: nat): Table
    requires k + order <= |d|
  {
    if k == 0 then map[]
    else Record(TableUpTo(d, order, k - 1), d[k - 1..k - 1 + order], d[k - 1 + order])
  }

  /** The table buildTransitionMatrix leaves: empty with fewer than order + 1 degrees. */
  function BuildTable(d: seq<int>, order: nat): Table {
    if |d| < order + 1 then map[] else TableUpTo(d, order, |d| - order)
  }

  /** The number of windows i < k whose context is c and whose successor is x. */
  function Occurrences(d: seq<int>, order: nat, k: nat, c: seq<int>, x: int): nat
    requires k + order <= |d|
  {
    if k == 0 then 0
    else
      var hit := if d[k - 1..k - 1 + order] == c && d[k - 1 + order] == x then 1 else 0;
      Occurrences(d, order, k - 1, c, x) + hit
  }

  /** Every key a context of length `order`, every row non-empty, every count positive, every successor a degree. */
  ghost predicate WellFormedTable(t: Table, d: seq<int>, order: nat) {
    && (forall c :: c in t ==> |c| == order && |t[c]| > 0)
    && (forall c :: c in t ==> forall x :: x in t[c] ==> t[c][x] >= 1 && x in d)
  }

  /** Every listed successor is a key of the row. */
  ghost predicate Listed(keys: seq<int>, row: map<int, int>) {
    forall i :: 0 <= i < |keys| ==> keys[i] in row
  }

  /** A listing of the successors of a row as HashMap iteration yields them: each key exactly once. */
  ghost predicate Enumerates(keys: seq<int>, row: map<int, int>) {
    && Listed(keys, row)
    && (forall x :: x in row ==> x in keys)
    && (forall i, j :: 0 <= i < j < |keys| ==> keys[i] != keys[j])
  }

  /** The summed weight of the listed successors. */
  function Weight(keys: seq<int>, row: map<int, int>): int
    requires Listed(keys, row)
  {
    if keys == [] then 0 else row[keys[0]] + Weight(keys[1..], row)
  }

  /**
   * The cumulative walk: the first listed successor whose running weight
   * exceeds r, or None when the walk runs off the end.
   */
  function Pick(keys: seq<int>, row: map<int, int>, r: int): Option<int>
    requires Listed(keys, row)
  {
    if keys == [] then None
    else if r < row[keys[0]] then Some(keys[0])
    else Pick(keys[1..], row, r - row[keys[0]])
  }

  /** The context suffix generateNextNote looks up. */
  function Suffix(context: seq<int>, order: nat): seq<int>
    requires |context| >= order
  {
    context[|context| - order..]
  }

  /**
   * What generateNextNote returns. `draw` is the value of the first
   * Random.nextInt(bound) call (taken modulo bound), `spare` that of the
   * fallback call after the walk.
   */
  function NextNote(degrees: seq<int>, t: Table, order: nat, context: seq<int>,
                    keyOrder: seq<int>, draw: nat, spare: nat): int
    requires |degrees| > 0
    requires WellFormedTable(t, degrees, order)
    requires |context| >= order && Suffix(context, order) in t ==>
      Enumerates(keyOrder, t[Suffix(context, order)])
  {
    if |context| < order then degrees[draw % |degrees|]
    else
      var key := Suffix(context, order);
      if key !in t || |t[key]| == 0 then degrees[draw % |degrees|]
      else
        var row := t[key];
        var total := Weight(keyOrder, row);
        if total <= 0 then degrees[draw % |degrees|]
        else
          match Pick(keyOrder, row, draw % total)
          case Some(x) => x
          case None => degrees[spare % |degrees|]
  }

  class MarkovMelody {
    var order: nat
    var transitionMatrix: Table
    var scaleDegrees: seq<int>

    /** The table is always the one built from the current degrees and order. */
    ghost predicate Valid()
      reads this
    {
      transitionMatrix == BuildTable(scaleDegrees, order)
    }

    constructor (order: nat)
      ensures Valid() && this.order == order && scaleDegrees == [] && transitionMatrix == map[]
    {
      this.order := order;
      transitionMatrix := map[];
      scaleDegrees := [];
    }

    method SetScaleDegrees(degrees: seq<int>)
      modifies this
      ensures Valid() && scaleDegrees == degrees && order == old(order)
      ensures transitionMatrix == BuildTable(degrees, order)
    {
      scaleDegrees := degrees;
      BuildTransitionMatrix();
    }

    /** A negative order makes the Java rebuild index before the list, so orders are natural. */
    method SetOrder(order: nat)
      modifies this
      ensures Valid() && this.order == order && scaleDegrees == old(scaleDegrees)
      ensures transitionMatrix == BuildTable(scaleDegrees, order)
    {
      this.order := order;
      BuildTransitionMatrix();
    }

    /** Clears the table and counts every window of the degree list. */
    method BuildTransitionMatrix()
      modifies this`transitionMatrix
      ensures Valid()
    {
      transitionMatrix := map[];
      if |scaleDegrees| < order + 1 {
        return;
      }
      var i := 0;
      while i <= |scaleDegrees| - order - 1
        invariant 0 <= i <= |scaleDegrees| - order
        invariant transitionMatrix == TableUpTo(scaleDegrees, order, i)
      {
        var context := BuildContext(i);
        var nextDegree := scaleDegrees[i + order];
        transitionMatrix := Record(transitionMatrix, context, nextDegree);
        i := i + 1;
      }
    }

    /** The key of the window starting at `startIndex`. */
    method BuildContext(startIndex: nat) returns (context: seq<int>)
      requires startIndex + order <= |scaleDegrees|
      ensures context == scaleDegrees[startIndex..startIndex + order]
    {
      context := [];
      var i := 0;
      while i < order
        invariant 0 <= i <= order
        invariant context == scaleDegrees[startIndex..startIndex + i]
      {
        context := context + [scaleDegrees[startIndex + i]];
        i := i + 1;
      }
    }

    /** The key of the last `order` elements of a context list. */
    method BuildContextFromList(context: seq<int>) returns (key: seq<int>)
      requires |context| >= order
      ensures key == Suffix(context, order)
    {
      key := [];
      var i := 0;
      while i < order
        invariant 0 <= i <= order
        invariant key == context[|context| - order..|context| - order + i]
      {
        key := key + [context[|context| - order + i]];
        i := i + 1;
      }
    }

    /**
     * An iteration order of the successors stored for `context` (empty when
     * there are none).
     */
    method IterationOrder(context: seq<int>) returns (keyOrder: seq<int>)
      ensures |context| >= order && Suffix(context, order) in transitionMatrix ==>
        Enumerates(keyOrder, transitionMatrix[Suffix(context, order)])
    {
      keyOrder := [];
      if |context| >= order && Suffix(context, order) in transitionMatrix {
        keyOrder := EnumerateKeys(transitionMatrix[Suffix(context, order)]);
      }
    }

    /**
     * The next degree: a uniform fallback degree when the context is too
     * short or unseen, otherwise the cumulative weighted walk over the
     * context's successors.
     */
    method GenerateNextNote(context: seq<int>, keyOrder: seq<int>, draw: nat, spare: nat)
      returns (note: int)
      requires Valid() && |scaleDegrees| > 0
      requires |context| >= order && Suffix(context, order) in transitionMatrix ==>
        Enumerates(keyOrder, transitionMatrix[Suffix(context, order)])
      ensures BuiltTableWellFormed(scaleDegrees, order) &&
        note == NextNote(scaleDegrees, transitionMatrix, order, context, keyOrder, draw, spare)
      ensures note in scaleDegrees
    {
      BuildTableWellFormed(scaleDegrees, order);
      if |context| < order {
        return scaleDegrees[draw % |scaleDegrees|];
      }
      var contextStr := BuildContextFromList(context);
      if contextStr !in transitionMatrix || |transitionMatrix[contextStr]| == 0 {
        return scaleDegrees[draw % |scaleDegrees|];
      }
      var transitions := transitionMatrix[contextStr];
      var totalWeight := Weight(keyOrder, transitions);
      if totalWeight <= 0 {
        return scaleDegrees[draw % |scaleDegrees|];
      }
      var randomValue := draw % totalWeight;
      var cumulativeWeight := 0;
      var i := 0;
      while i < |keyOrder|
        invariant 0 <= i <= |keyOrder|
        invariant 0 <= cumulativeWeight <= randomValue
        invariant Pick(keyOrder, transitions, randomValue)
          == Pick(keyOrder[i..], transitions, randomValue - cumulativeWeight)
      {
        assert keyOrder[i..][1..] == keyOrder[i + 1..];
        cumulativeWeight := cumulativeWeight + transitions[keyOrder[i]];
        if randomValue < cumulativeWeight {
          return keyOrder[i];
        }
        i := i + 1;
      }
      return scaleDegrees[spare % |scaleDegrees|];
    }
  }

  /**
   * Lists the keys of a row, each exactly once. HashMap promises no
   * particular order, so the choice of the next key is left open.
   */
  method EnumerateKeys(row: map<int, int>) returns (keys: seq<int>)
    ensures Enumerates(keys, row)
  {
    keys := [];
    var remaining := row.Keys;
    while remaining != {}
      invariant remaining <= row.Keys
      invariant Listed(keys, row)
      invariant forall i :: 0 <= i < |keys| ==> keys[i] !in remaining
      invariant forall x :: x in row ==> x in keys || x in remaining
      invariant forall i, j :: 0 <= i < j < |keys| ==> keys[i] != keys[j]
      decreases remaining
    {
      assert exists y :: y in remaining by {
        SomeElement(remaining);
      }
      var x :| x in remaining;
      keys := keys + [x];
      remaining := remaining - {x};
    }
  }

  lemma SomeElement(s: set<int>)
    requires s != {}
    ensures exists y :: y in s
  {
    if forall y :: y !in s {
      assert false;
    }
  }

  ghost predicate BuiltTableWellFormed(d: seq<int>, order: nat) {
    WellFormedTable(BuildTable(d, order), d, order)
  }

  lemma {:induction false} TableUpToWellFormed(d: seq<int>, order: nat, k: nat)
    requires k + order <= |d|
    ensures WellFormedTable(TableUpTo(d, order, k), d, order)
  {
    if k > 0 {
      TableUpToWellFormed(d, order, k - 1);
      var t := TableUpTo(d, order, k - 1);
      var c, x := d[k - 1..k - 1 + order], d[k - 1 + order];
      RecordWellFormed(t, d, order, c, x);
    }
  }

  lemma RecordWellFormed(t: Table, d: seq<int>, order: nat, c: seq<int>, x: int)
    requires WellFormedTable(t, d, order)
    requires |c| == order && x in d
    ensures WellFormedTable(Record(t, c, x), d, order)
  {
    var t' := Record(t, c, x);
    var row := if c in t then t[c] else map[];
    var row' := row[x := (if x in row then row[x] else 0) + 1];
    assert t' == t[c := row'];
    assert forall x' :: x' in row ==> row[x'] >= 1 && x' in d;
    forall c' | c' in t'
      ensures |c'| == order && |t'[c']| > 0
      ensures forall x' :: x' in t'[c'] ==> t'[c'][x'] >= 1 && x' in d
    {
      if c' == c {
        assert t'[c'] == row' && x in row';
      } else {
        assert c' in t && t'[c'] == t[c'];
      }
    }
  }

  lemma BuildTableWellFormed(d: seq<int>, order: nat)
    ensures BuiltTableWellFormed(d, order)
  {
    if |d| >= order + 1 {
      TableUpToWellFormed(d, order, |d| - order);
    }
  }
}

module MarkovFacts {
  import opened JavaInt
  import opened Markov

  /** Recording (c, x) adds one to that count and changes no other. */
  lemma RecordCount(t: Table, c: seq<int>, x: int, c': seq<int>, x': int)
    ensures CountIn(Record(t, c, x), c', x') == CountIn(t, c', x') + (if c' == c && x' == x then 1 else 0)
  {
    var t' := Record(t, c, x);
    if c' == c {
      assert t'[c'] == t'[c];
    } else {
      assert c' in t' <==> c' in t;
      assert c' in t ==> t'[c'] == t[c'];
    }
  }

  lemma {:induction false} TableUpToCount(d: seq<int>, order: nat, k: nat, c: seq<int>, x: int)
    requires k + order <= |d|
    ensures CountIn(TableUpTo(d, order, k), c, x) == Occurrences(d, order, k, c, x)
  {
    if k > 0 {
      TableUpToCount(d, order, k - 1, c, x);
      RecordCount(TableUpTo(d, order, k - 1), d[k - 1..k - 1 + order], d[k - 1 + order], c, x);
    }
  }

  /**
   * The rebuilt table stores, for every context and successor, exactly the
   * number of windows of the degree list that show that context followed by
   * that successor; with fewer than order + 1 degrees nothing is stored.
   */
  lemma TableCounts(d: seq<int>, order: nat, c: seq<int>, x: int)
    ensures |d| < order + 1 ==> BuildTable(d, order) == map[]
    ensures |d| >= order + 1 ==>
      CountIn(BuildTable(d, order), c, x) == Occurrences(d, order, |d| - order, c, x)
  {
    if |d| >= order + 1 {
      TableUpToCount(d, order, |d| - order, c, x);
    }
  }

  /** Every stored count is at least one and every successor is one of the degrees. */
  lemma TableCountsPositive(d: seq<int>, order: nat, c: seq<int>, x: int)
    requires c in BuildTable(d, order) && x in BuildTable(d, order)[c]
    ensures BuildTable(d, order)[c][x] >= 1 && x in d && |c| == order
  {
    BuildTableWellFormed(d, order);
  }

  /** The sum of the values of a map. */
  ghost function MapSum<K>(m: map<K, int>): int
    decreases |m|
  {
    if |m| == 0 then 0
    else
      var k := PickKey(m);
      m[k] + MapSum(m - {k})
  }

  ghost function PickKey<K>(m: map<K, int>): (k: K)
    requires |m| > 0
    ensures k in m
  {
    NonEmptyKeys(m);
    var k :| k in m; k
  }

  lemma NonEmptyKeys<K>(m: map<K, int>)
    requires |m| > 0
    ensures exists k :: k in m
  {
    if forall k :: k !in m {
      assert false;
    }
  }

  /** Any key can be taken out first. */
  lemma {:induction false} MapSumRemove<K>(m: map<K, int>, y: K)
    requires y in m
    ensures MapSum(m) == m[y] + MapSum(m - {y})
    decreases |m|
  {
    var k := PickKey(m);
    if k != y {
      MapSumRemove(m - {k}, y);
      MapSumRemove(m - {y}, k);
      assert (m - {k}) - {y} == (m - {y}) - {k};
    }
  }

  /** Overwriting one value changes the sum by the difference. */
  lemma MapSumUpdate<K>(m: map<K, int>, k: K, v: int)
    ensures MapSum(m[k := v]) == MapSum(m) - (if k in m then m[k] else 0) + v
  {
    MapSumRemove(m[k := v], k);
    assert m[k := v] - {k} == m - {k};
    if k in m {
      MapSumRemove(m, k);
    } else {
      assert m - {k} == m;
    }
  }

  /** Each context's row total. */
  ghost function RowSums(t: Table): (s: map<seq<int>, int>)
    ensures s.Keys == t.Keys
    ensures forall c :: c in t ==> s[c] == MapSum(t[c])
  {
    map c | c in t :: MapSum(t[c])
  }

  /** The total of all counts of a table. */
  ghost function TableTotal(t: Table): int {
    MapSum(RowSums(t))
  }

  lemma RecordRowSum(t: Table, c: seq<int>, x: int)
    ensures MapSum(Record(t, c, x)[c]) == (if c in t then MapSum(t[c]) else 0) + 1
  {
    var row := if c in t then t[c] else map[];
    var v := (if x in row then row[x] else 0) + 1;
    MapSumUpdate(row, x, v);
    assert Record(t, c, x)[c] == row[x := v];
    if c !in t {
      assert |row| == 0;
    }
  }

  lemma RecordRowSums(t: Table, c: seq<int>, x: int)
    ensures RowSums(Record(t, c, x)) == RowSums(t)[c := MapSum(Record(t, c, x)[c])]
  {
    var t' := Record(t, c, x);
    var sums, sums' := RowSums(t), RowSums(t');
    forall c' | c' in sums'
      ensures sums'[c'] == sums[c := MapSum(t'[c])][c']
    {
      if c' != c {
        assert t'[c'] == t[c'];
      }
    }
  }

  lemma RecordTotal(t: Table, c: seq<int>, x: int)
    ensures TableTotal(Record(t, c, x)) == TableTotal(t) + 1
  {
    var t' := Record(t, c, x);
    RecordRowSum(t, c, x);
    RecordRowSums(t, c, x);
    MapSumUpdate(RowSums(t), c, MapSum(t'[c]));
  }

  lemma {:induction false} TableUpToTotal(d: seq<int>, order: nat, k: nat)
    requires k + order <= |d|
    ensures TableTotal(TableUpTo(d, order, k)) == k
  {
    if k == 0 {
      assert |RowSums(TableUpTo(d, order, 0))| == 0;
    } else {
      TableUpToTotal(d, order, k - 1);
      RecordTotal(TableUpTo(d, order, k - 1), d[k - 1..k - 1 + order], d[k - 1 + order]);
    }
  }

  /** All counts of a rebuilt table add up to the number of windows, |d| - order. */
  lemma BuildTableTotal(d: seq<int>, order: nat)
    requires |d| >= order + 1
    ensures TableTotal(BuildTable(d, order)) == |d| - order
  {
    TableUpToTotal(d, order, |d| - order);
  }

  lemma PrefixWeight(keys: seq<int>, row: map<int, int>, i: nat)
    requires Listed(keys, row) && 0 < i <= |keys|
    ensures Weight(keys[..i], row) == row[keys[0]] + Weight(keys[1..][..i - 1], row)
  {
    assert keys[..i][1..] == keys[1..][..i - 1];
  }

  /**
   * With non-negative weights and 0 <= r < total, the walk returns the
   * first listed successor whose running weight exceeds r: the returned
   * index i has running weight <= r before it and > r after it.
   */
  lemma {:induction false} PickFirstExceeding(keys: seq<int>, row: map<int, int>, r: int)
    returns (i: nat)
    requires Listed(keys, row)
    requires forall j :: 0 <= j < |keys| ==> row[keys[j]] >= 0
    requires 0 <= r < Weight(keys, row)
    ensures i < |keys| && Pick(keys, row, r) == Some(keys[i])
    ensures Weight(keys[..i], row) <= r < Weight(keys[..i + 1], row)
    ensures forall j :: 0 < j <= i ==> Weight(keys[..j], row) <= r
  {
    PrefixWeight(keys, row, 1);
    assert keys[1..][..0] == [];
    if r < row[keys[0]] {
      i := 0;
    } else {
      var rest := keys[1..];
      assert forall j :: 0 <= j < |rest| ==> rest[j] == keys[j + 1];
      var i' := PickFirstExceeding(rest, row, r - row[keys[0]]);
      i := i' + 1;
      PrefixWeight(keys, row, i);
      PrefixWeight(keys, row, i + 1);
      forall j | 0 < j <= i
        ensures Weight(keys[..j], row) <= r
      {
        PrefixWeight(keys, row, j);
        if j > 1 {
          assert Weight(rest[..j - 1], row) <= r - row[keys[0]];
        }
      }
    }
  }

  lemma {:induction false} WeightAtLeastCount(keys: seq<int>, row: map<int, int>)
    requires Listed(keys, row)
    requires forall j :: 0 <= j < |keys| ==> row[keys[j]] >= 1
    ensures Weight(keys, row) >= |keys|
  {
    if keys != [] {
      assert forall j :: 0 <= j < |keys[1..]| ==> keys[1..][j] == keys[j + 1];
      WeightAtLeastCount(keys[1..], row);
    }
  }

  /**
   * For a context the table knows, the uniform fallbacks are unreachable:
   * the total weight is positive and the result is a recorded successor,
   * the first in iteration order whose running weight exceeds the draw.
   */
  lemma NextNoteFromTable(d: seq<int>, order: nat, context: seq<int>, keyOrder: seq<int>,
                          draw: nat, spare: nat)
    requires |d| > 0
    requires |context| >= order && Suffix(context, order) in BuildTable(d, order)
    requires Enumerates(keyOrder, BuildTable(d, order)[Suffix(context, order)])
    ensures BuiltTableWellFormed(d, order)
    ensures var row := BuildTable(d, order)[Suffix(context, order)];
      && Weight(keyOrder, row) >= 1
      && (exists i :: 0 <= i < |keyOrder|
            && NextNote(d, BuildTable(d, order), order, context, keyOrder, draw, spare) == keyOrder[i]
            && keyOrder[i] in row
            && Weight(keyOrder[..i], row) <= draw % Weight(keyOrder, row) < Weight(keyOrder[..i + 1], row))
  {
    BuildTableWellFormed(d, order);
    var t := BuildTable(d, order);
    var row := t[Suffix(context, order)];
    assert forall j :: 0 <= j < |keyOrder| ==> row[keyOrder[j]] >= 1;
    SomeElement(row.Keys);
    var x :| x in row;
    assert x in keyOrder;
    WeightAtLeastCount(keyOrder, row);
    var i := PickFirstExceeding(keyOrder, row, draw % Weight(keyOrder, row));
  }

  /** Every value generateNextNote can return is one of the degrees. */
  lemma NextNoteInDegrees(d: seq<int>, order: nat, context: seq<int>, keyOrder: seq<int>,
                          draw: nat, spare: nat)
    requires |d| > 0
    requires |context| >= order && Suffix(context, order) in BuildTable(d, order) ==>
      Enumerates(keyOrder, BuildTable(d, order)[Suffix(context, order)])
    ensures BuiltTableWellFormed(d, order)
    ensures NextNote(d, BuildTable(d, order), order, context, keyOrder, draw, spare) in d
  {
    BuildTableWellFormed(d, order);
    if |context| >= order && Suffix(context, order) in BuildTable(d, order) {
      NextNoteFromTable(d, order, context, keyOrder, draw, spare);
    }
  }

  /** Only the last `order` elements of the context matter. */
  lemma NextNoteSuffixOnly(d: seq<int>, order: nat, c1: seq<int>, c2: seq<int>,
                           keyOrder: seq<int>, draw: nat, spare: nat)
    requires |d| > 0 && BuiltTableWellFormed(d, order)
    requires |c1| >= order && |c2| >= order && Suffix(c1, order) == Suffix(c2, order)
    requires Suffix(c1, order) in BuildTable(d, order) ==>
      Enumerates(keyOrder, BuildTable(d, order)[Suffix(c1, order)])
    ensures NextNote(d, BuildTable(d, order), order, c1, keyOrder, draw, spare)
         == NextNote(d, BuildTable(d, order), order, c2, keyOrder, draw, spare)
  {
  }

  /**
   * The engine's table: order 2 over the C Dorian offsets has five contexts,
   * each followed once by a single successor.
   */
  lemma DorianOrderTwo()
    ensures BuildTable([0, 2, 3, 5, 7, 9, 10], 2) ==
      map[[0, 2] := map[3 := 1], [2, 3] := map[5 := 1], [3, 5] := map[7 := 1],
          [5, 7] := map[9 := 1], [7, 9] := map[10 := 1]]
  {
    var d := [0, 2, 3, 5, 7, 9, 10];
    assert d[0..2] == [0, 2] && d[1..3] == [2, 3] && d[2..4] == [3, 5];
    assert d[3..5] == [5, 7] && d[4..6] == [7, 9];
    assert TableUpTo(d, 2, 1) == map[[0, 2] := map[3 := 1]];
    assert TableUpTo(d, 2, 2) == map[[0, 2] := map[3 := 1], [2, 3] := map[5 := 1]];
    assert TableUpTo(d, 2, 3) == map[[0, 2] := map[3 := 1], [2, 3] := map[5 := 1], [3, 5] := map[7 := 1]];
    assert TableUpTo(d, 2, 4) == map[[0, 2] := map[3 := 1], [2, 3] := map[5 := 1], [3, 5] := map[7 := 1],
                                     [5, 7] := map[9 := 1]];
  }
}
