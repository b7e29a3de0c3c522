/**
 * The 8 by 8 playing field (com.groovegarden.model.GridModel): which cells are
 * active, which layer each belongs to (0 rhythm, 1 melody, 2 both), and a Life
 * automaton whose output is merged into the active cells.
 */
module Grid {
  import opened Automaton

  const GridSize: nat := 8

  /** The contents of a two-dimensional int array. */
  function Layers(a: array2<int>): (b: seq<seq<int>>)
    reads a
    ensures |b| == a.Length0
    ensures forall r :: 0 <= r < a.Length0 ==> |b[r]| == a.Length1
    ensures forall r, c :: 0 <= r < a.Length0 && 0 <= c < a.Length1 ==> b[r][c] == a[r, c]
  {
    seq(a.Length0, r reads a requires 0 <= r < a.Length0 =>
      seq(a.Length1, c reads a requires 0 <= c < a.Length1 => a[r, c]))
  }

  /** The live cells in the first k entries of a row. */
  function RowCount(row: seq<bool>, k: nat): nat
    requires k <= |row|
  {
    if k == 0 then 0 else RowCount(row, k - 1) + Bit(row[k - 1])
  }

  /** The live cells in the first k rows. */
  function BoardCount(b: Board, k: nat): nat
    requires k <= |b|
  {
    if k == 0 then 0 else BoardCount(b, k - 1) + RowCount(b[k - 1], |b[k - 1]|)
  }

  function ActiveCount(b: Board): nat {
    BoardCount(b, |b|)
  }

  /** The one-way merge of update(): a cell is active afterwards if it was or the automaton says so. */
  function Merge(a: Board, s: Board, n: nat): (m: Board)
    requires Square(a, n) && Square(s, n)
    ensures Square(m, n)
    ensures forall r, c :: 0 <= r < n && 0 <= c < n ==> m[r][c] == (a[r][c] || s[r][c])
  {
    seq(n, r requires 0 <= r < n => seq(n, c requires 0 <= c < n => a[r][c] || s[r][c]))
  }

  class GridModel {
    var activeCells: array2<bool>
    var cellLayers: array2<int>
    var automaton: CellularAutomaton
    var currentScale: string

    /** Shapes and aliasing, plus: every layer is 0, 1 or 2, and an inactive cell is on layer 0. */
    ghost predicate Valid()
      reads this, automaton, activeCells, cellLayers
    {
      && activeCells.Length0 == GridSize && activeCells.Length1 == GridSize
      && cellLayers.Length0 == GridSize && cellLayers.Length1 == GridSize
      && automaton.Valid() && automaton.gridSize == GridSize
      && activeCells != automaton.currentState && activeCells != automaton.nextState
      && forall r, c :: 0 <= r < GridSize && 0 <= c < GridSize ==>
        0 <= cellLayers[r, c] <= 2 && (!activeCells[r, c] ==> cellLayers[r, c] == 0)
    }

    constructor ()
      ensures Valid()
      ensures fresh(activeCells) && fresh(cellLayers) && fresh(automaton)
      ensures fresh(automaton.currentState) && fresh(automaton.nextState)
      ensures Contents(activeCells) == Empty(GridSize)
      ensures forall r, c :: 0 <= r < GridSize && 0 <= c < GridSize ==> cellLayers[r, c] == 0
      ensures currentScale == "C Dorian"
    {
      activeCells := new bool[GridSize, GridSize]((_, _) => false);
      cellLayers := new int[GridSize, GridSize]((_, _) => 0);
      automaton := new CellularAutomaton(GridSize);
      currentScale := "C Dorian";
      new;
      BoardEq(Contents(activeCells), Empty(GridSize), GridSize);
    }

    /** Flips one cell; switching it off also puts it back on layer 0. */
    method ToggleCell(row: int, col: int)
      requires Valid() && 0 <= row < GridSize && 0 <= col < GridSize
      modifies activeCells, cellLayers
      ensures Valid()
      ensures Contents(activeCells) ==
        old(Contents(activeCells))[row := old(Contents(activeCells))[row][col := !old(activeCells[row, col])]]
      ensures Layers(cellLayers) ==
        if old(activeCells[row, col])
        then old(Layers(cellLayers))[row := old(Layers(cellLayers))[row][col := 0]]
        else old(Layers(cellLayers))
    {
      ghost var active := Contents(activeCells);
      ghost var layers := Layers(cellLayers);
      activeCells[row, col] := !activeCells[row, col];
      if !activeCells[row, col] {
        cellLayers[row, col] := 0;
      }
      BoardEq(Contents(activeCells), active[row := active[row][col := !active[row][col]]], GridSize);
      if active[row][col] {
        LayersEq(Layers(cellLayers), layers[row := layers[row][col := 0]], GridSize);
      } else {
        LayersEq(Layers(cellLayers), layers, GridSize);
      }
    }

    /** Moves an active cell to the next layer, 0 to 1 to 2 to 0; an inactive cell is left alone. */
    method CycleCellLayer(row: int, col: int)
      requires Valid() && 0 <= row < GridSize && 0 <= col < GridSize
      modifies cellLayers
      ensures Valid()
      ensures Layers(cellLayers) ==
        if old(activeCells[row, col])
        then old(Layers(cellLayers))[row := old(Layers(cellLayers))[row][col := (old(cellLayers[row, col]) + 1) % 3]]
        else old(Layers(cellLayers))
    {
      ghost var layers := Layers(cellLayers);
      if !activeCells[row, col] {
        return;
      }
      cellLayers[row, col] := (cellLayers[row, col] + 1) % 3;
      LayersEq(Layers(cellLayers), layers[row := layers[row][col := (layers[row][col] + 1) % 3]], GridSize);
    }

    method SetScale(scale: string)
      modifies this`currentScale
      ensures currentScale == scale
      ensures activeCells == old(activeCells) && cellLayers == old(cellLayers) && automaton == old(automaton)
    {
      currentScale := scale;
    }

    /**
     * One automaton generation of the active cells, merged in: no cell is
     * switched off and the layers stay as they were.
     */
    method Update()
      requires Valid()
      modifies activeCells, automaton, automaton.currentState, automaton.nextState
      ensures Valid() && automaton == old(automaton)
      ensures Contents(activeCells) == Merge(old(Contents(activeCells)), Step(old(Contents(activeCells)), GridSize), GridSize)
    {
      ghost var before := Contents(activeCells);
      assert Crop(activeCells, GridSize) == before by {
        BoardEq(Crop(activeCells, GridSize), before, GridSize);
      }
      automaton.Update(activeCells);
      assert Contents(activeCells) == before;
      var newState := automaton.GetCurrentState();
      ghost var stepped := Contents(newState);
      assert stepped == Step(before, GridSize);
      MergeInto(activeCells, newState);
    }

    /** The merge loop of update(): every cell live in `state` becomes active. */
    static method MergeInto(active: array2<bool>, state: array2<bool>)
      requires active != state
      requires active.Length0 == GridSize && active.Length1 == GridSize
      requires state.Length0 == GridSize && state.Length1 == GridSize
      modifies active
      ensures Contents(active) == Merge(old(Contents(active)), Contents(state), GridSize)
    {
      ghost var before := Contents(active);
      var row := 0;
      while row < GridSize
        invariant 0 <= row <= GridSize
        invariant forall r, c :: 0 <= r < GridSize && 0 <= c < GridSize ==>
          active[r, c] == (before[r][c] || (r < row && state[r, c]))
      {
        var col := 0;
        while col < GridSize
          invariant 0 <= col <= GridSize
          invariant forall r, c :: 0 <= r < GridSize && 0 <= c < GridSize ==>
            active[r, c] == (before[r][c] || ((r < row || (r == row && c < col)) && state[r, c]))
        {
          if state[row, col] {
            active[row, col] := true;
          }
          col := col + 1;
        }
        row := row + 1;
      }
      BoardEq(Contents(active), Merge(before, Contents(state), GridSize), GridSize);
    }

    /** The counting loop over all 64 cells. */
    method GetActiveCellCount() returns (count: nat)
      requires Valid()
      ensures count == ActiveCount(Contents(activeCells))
      ensures count <= GridSize * GridSize
    {
      ghost var b := Contents(activeCells);
      count := 0;
      var row := 0;
      while row < GridSize
        invariant 0 <= row <= GridSize
        invariant count == BoardCount(b, row)
      {
        var col := 0;
        while col < GridSize
          invariant 0 <= col <= GridSize
          invariant count == BoardCount(b, row) + RowCount(b[row], col)
        {
          if activeCells[row, col] {
            count := count + 1;
          }
          col := col + 1;
        }
        row := row + 1;
      }
      CountBound(b, GridSize);
    }

    /** The share of active cells: the count over 64, exact as the count is small. */
    method GetGridDensity() returns (density: real)
      requires Valid()
      ensures density == ActiveCount(Contents(activeCells)) as real / 64.0
      ensures 0.0 <= density <= 1.0
    {
      var count := GetActiveCellCount();
      density := count as real / (GridSize * GridSize) as real;
    }

    /** Every cell inactive on layer 0, and both automaton buffers dead. */
    method Clear()
      requires Valid()
      modifies activeCells, cellLayers, automaton.currentState, automaton.nextState
      ensures Valid()
      ensures Contents(activeCells) == Empty(GridSize)
      ensures forall r, c :: 0 <= r < GridSize && 0 <= c < GridSize ==> cellLayers[r, c] == 0
      ensures Contents(automaton.currentState) == Empty(GridSize)
      ensures Contents(automaton.nextState) == Empty(GridSize)
    {
      var row := 0;
      while row < GridSize
        invariant 0 <= row <= GridSize
        invariant forall r, c :: 0 <= r < row && 0 <= c < GridSize ==> !activeCells[r, c] && cellLayers[r, c] == 0
        invariant Valid()
      {
        var col := 0;
        while col < GridSize
          invariant 0 <= col <= GridSize
          invariant forall r, c :: 0 <= r < row && 0 <= c < GridSize ==> !activeCells[r, c] && cellLayers[r, c] == 0
          invariant forall c :: 0 <= c < col ==> !activeCells[row, c] && cellLayers[row, c] == 0
          invariant Valid()
        {
          activeCells[row, col] := false;
          cellLayers[row, col] := 0;
          col := col + 1;
        }
        row := row + 1;
      }
      automaton.Clear();
      BoardEq(Contents(activeCells), Empty(GridSize), GridSize);
    }
  }

  lemma LayersEq(a: seq<seq<int>>, b: seq<seq<int>>, n: nat)
    requires |a| == n && |b| == n
    requires forall r :: 0 <= r < n ==> |a[r]| == n && |b[r]| == n
    requires forall r, c :: 0 <= r < n && 0 <= c < n ==> a[r][c] == b[r][c]
    ensures a == b
  {
    assert forall r :: 0 <= r < n ==> a[r] == b[r];
  }

  lemma {:induction false} RowCountBound(row: seq<bool>, k: nat)
    requires k <= |row|
    ensures RowCount(row, k) <= k
  {
    if k > 0 {
      RowCountBound(row, k - 1);
    }
  }

  lemma {:induction false} BoardCountBound(b: Board, n: nat, k: nat)
    requires Square(b, n) && k <= n
    ensures BoardCount(b, k) <= k * n
  {
    if k > 0 {
      BoardCountBound(b, n, k - 1);
      RowCountBound(b[k - 1], n);
      assert (k - 1) * n + n == k * n;
    }
  }

  /** An n by n board has at most n * n live cells. */
  lemma CountBound(b: Board, n: nat)
    requires Square(b, n)
    ensures ActiveCount(b) <= n * n
  {
    BoardCountBound(b, n, n);
  }

  lemma {:induction false} RowCountMonotone(x: seq<bool>, y: seq<bool>, k: nat)
    requires k <= |x| == |y|
    requires forall c :: 0 <= c < |x| ==> x[c] ==> y[c]
    ensures RowCount(x, k) <= RowCount(y, k)
  {
    if k > 0 {
      RowCountMonotone(x, y, k - 1);
    }
  }

  lemma {:induction false} BoardCountMonotone(a: Board, b: Board, n: nat, k: nat)
    requires Square(a, n) && Square(b, n) && k <= n
    requires forall r, c :: 0 <= r < n && 0 <= c < n ==> a[r][c] ==> b[r][c]
    ensures BoardCount(a, k) <= BoardCount(b, k)
  {
    if k > 0 {
      BoardCountMonotone(a, b, n, k - 1);
      RowCountMonotone(a[k - 1], b[k - 1], n);
    }
  }

  /**
   * update() is monotone: live cells stay live, a dead cell switches on
   * exactly when it has three live neighbours, and the count never drops.
   */
  lemma UpdateMonotone(a: Board)
    requires Square(a, GridSize)
    ensures forall r, c :: 0 <= r < GridSize && 0 <= c < GridSize && a[r][c] ==>
      Merge(a, Step(a, GridSize), GridSize)[r][c]
    ensures forall r, c :: 0 <= r < GridSize && 0 <= c < GridSize && !a[r][c] ==>
      (Merge(a, Step(a, GridSize), GridSize)[r][c] <==> Surrounding(a, GridSize, r, c) == 3)
    ensures ActiveCount(a) <= ActiveCount(Merge(a, Step(a, GridSize), GridSize))
  {
    var m := Merge(a, Step(a, GridSize), GridSize);
    forall r, c | 0 <= r < GridSize && 0 <= c < GridSize && !a[r][c]
      ensures m[r][c] <==> Surrounding(a, GridSize, r, c) == 3
    {
      StepRule(a, GridSize, r, c);
    }
    BoardCountMonotone(a, m, GridSize, GridSize);
  }

  /** A cleared board counts no active cells. */
  lemma {:induction false} EmptyCount(n: nat, k: nat)
    requires k <= n
    ensures BoardCount(Empty(n), k) == 0
  {
    if k > 0 {
      EmptyCount(n, k - 1);
      EmptyRowCount(Empty(n)[k - 1], n);
    }
  }

  lemma {:induction false} EmptyRowCount(row: seq<bool>, k: nat)
    requires k <= |row| && forall c :: 0 <= c < |row| ==> !row[c]
    ensures RowCount(row, k) == 0
  {
    if k > 0 {
      EmptyRowCount(row, k - 1);
    }
  }
}
