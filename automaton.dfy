/**
 * Conway's Life on a bounded square board (com.groovegarden.model.CellularAutomaton):
 * two buffers, the input copied into the current one, the next generation
 * written into the other, then the two swapped. Cells outside the board
 * count as dead (no wrap-around).
 */
module Automaton {
  /** A snapshot of a board, row by row. */
  type Board = seq<seq<bool>>

  ghost predicate Square(b: Board, n: nat) {
    |b| == n && forall r :: 0 <= r < n ==> |b[r]| == n
  }

  /** A board with every cell dead. */
  function Empty(n: nat): (b: Board)
    ensures Square(b, n)
    ensures forall r, c :: 0 <= r < n && 0 <= c < n ==> !b[r][c]
  {
    seq(n, _ => seq(n, _ => false))
  }

  /** The cell at (r, c) is on the board and alive. */
  function Alive(b: Board, n: nat, r: int, c: int): bool
    requires Square(b, n)
  {
    0 <= r < n && 0 <= c < n && b[r][c]
  }

  function Bit(x: bool): nat {
    if x then 1 else 0
  }

  /** The live cells at offsets (dr, -1) up to (dr, m - 2) of one row of offsets; the centre counts nothing. */
  function RowOffsets(b: Board, n: nat, r: int, c: int, dr: int, m: nat): nat
    requires Square(b, n) && m <= 3
  {
    if m == 0 then 0
    else RowOffsets(b, n, r, c, dr, m - 1) + if dr == 0 && m == 2 then 0 else Bit(Alive(b, n, r + dr, c + m - 2))
  }

  /** The live cells in the first m rows of offsets, dr = -1 up to m - 2. */
  function CountRows(b: Board, n: nat, r: int, c: int, m: nat): nat
    requires Square(b, n) && m <= 3
  {
    if m == 0 then 0 else CountRows(b, n, r, c, m - 1) + RowOffsets(b, n, r, c, m - 2, 3)
  }

  /** The number of live neighbours of (r, c), the loop order of countNeighbors. */
  function Neighbors(b: Board, n: nat, r: int, c: int): nat
    requires Square(b, n)
  {
    CountRows(b, n, r, c, 3)
  }

  /** The reference count: the eight surrounding cells, each on the board and alive. */
  function Surrounding(b: Board, n: nat, r: int, c: int): nat
    requires Square(b, n)
  {
    Bit(Alive(b, n, r - 1, c - 1)) + Bit(Alive(b, n, r - 1, c)) + Bit(Alive(b, n, r - 1, c + 1))
    + Bit(Alive(b, n, r, c - 1)) + Bit(Alive(b, n, r, c + 1))
    + Bit(Alive(b, n, r + 1, c - 1)) + Bit(Alive(b, n, r + 1, c)) + Bit(Alive(b, n, r + 1, c + 1))
  }

  /** Life's rule: a live cell survives with 2 or 3 neighbours, a dead one is born with 3. */
  function Rule(alive: bool, neighbors: nat): bool {
    if alive then neighbors == 2 || neighbors == 3 else neighbors == 3
  }

  /** The next generation of the whole board. */
  function Step(b: Board, n: nat): (b': Board)
    requires Square(b, n)
    ensures Square(b', n)
  {
    seq(n, r requires 0 <= r < n => seq(n, c requires 0 <= c < n => Rule(b[r][c], Neighbors(b, n, r, c))))
  }

  /** The contents of a two-dimensional array. */
  function Contents(a: array2<bool>): (b: Board)
    reads a
    ensures |b| == a.Length0
    ensures forall r :: 0 <= r < a.Length0 ==> |b[r]| == a.Length1
    ensures forall r, c :: 0 <= r < a.Length0 && 0 <= c < a.Length1 ==> b[r][c] == a[r, c]
  {
    seq(a.Length0, r reads a requires 0 <= r < a.Length0 =>
      seq(a.Length1, c reads a requires 0 <= c < a.Length1 => a[r, c]))
  }

  /** The top-left n by n corner of an array: the part update() reads. */
  function Crop(a: array2<bool>, n: nat): (b: Board)
    reads a
    requires a.Length0 >= n && a.Length1 >= n
    ensures Square(b, n)
    ensures forall r, c :: 0 <= r < n && 0 <= c < n ==> b[r][c] == a[r, c]
  {
    seq(n, r reads a requires 0 <= r < n => seq(n, c reads a requires 0 <= c < n => a[r, c]))
  }

  lemma BoardEq(a: Board, b: Board, n: nat)
    requires Square(a, n) && Square(b, n)
    requires forall r, c :: 0 <= r < n && 0 <= c < n ==> a[r][c] == b[r][c]
    ensures a == b
  {
    assert forall r :: 0 <= r < n ==> a[r] == b[r];
  }

  class CellularAutomaton {
    var gridSize: nat
    var currentState: array2<bool>
    var nextState: array2<bool>

    ghost predicate Valid()
      reads this
    {
      && currentState.Length0 == gridSize && currentState.Length1 == gridSize
      && nextState.Length0 == gridSize && nextState.Length1 == gridSize
      && currentState != nextState
    }

    /** Two fresh all-dead buffers of the given size. */
    constructor (gridSize: nat)
      ensures Valid() && this.gridSize == gridSize
      ensures fresh(currentState) && fresh(nextState)
      ensures Contents(currentState) == Empty(gridSize) && Contents(nextState) == Empty(gridSize)
    {
      this.gridSize := gridSize;
      currentState := new bool[gridSize, gridSize]((_, _) => false);
      nextState := new bool[gridSize, gridSize]((_, _) => false);
      new;
      BoardEq(Contents(currentState), Empty(gridSize), gridSize);
      BoardEq(Contents(nextState), Empty(gridSize), gridSize);
    }

    /**
     * One generation: the input's top-left corner becomes the copied buffer,
     * the next generation of it is written into the other buffer, and the
     * buffers swap. The copy is what the old current buffer holds afterwards.
     */
    method Update(input: array2<bool>)
      requires Valid()
      requires input.Length0 >= gridSize && input.Length1 >= gridSize
      modifies this, currentState, nextState
      ensures Valid() && gridSize == old(gridSize)
      ensures currentState == old(nextState) && nextState == old(currentState)
      ensures Contents(nextState) == old(Crop(input, gridSize))
      ensures Contents(currentState) == Step(old(Crop(input, gridSize)), gridSize)
      ensures input != old(nextState) ==> forall r, c :: 0 <= r < input.Length0 && 0 <= c < input.Length1 ==>
        input[r, c] == old(input[r, c])
    {
      ghost var source := Crop(input, gridSize);
      var n := gridSize;
      var current, next := currentState, nextState;
      CopyCorner(input, current, n);
      WriteNextGeneration();
      BoardEq(Contents(current), source, n);
      BoardEq(Contents(next), Step(source, n), n);
      currentState, nextState := next, current;
    }

    /** The rule loop of update(): the next generation of the current buffer into the other one. */
    method WriteNextGeneration()
      requires Valid()
      modifies nextState
      ensures Crop(nextState, gridSize) == Step(Crop(currentState, gridSize), gridSize)
    {
      var n := gridSize;
      ghost var source := Crop(currentState, n);
      ghost var stepped := Step(source, n);
      var row := 0;
      while row < n
        invariant 0 <= row <= n
        invariant forall r, c :: 0 <= r < row && 0 <= c < n ==> nextState[r, c] == stepped[r][c]
      {
        var col := 0;
        while col < n
          invariant 0 <= col <= n
          invariant forall r, c :: 0 <= r < row && 0 <= c < n ==> nextState[r, c] == stepped[r][c]
          invariant forall c :: 0 <= c < col ==> nextState[row, c] == stepped[row][c]
        {
          var neighbors := CountNeighbors(row, col);
          var isAlive := currentState[row, col];
          if isAlive {
            nextState[row, col] := neighbors == 2 || neighbors == 3;
          } else {
            nextState[row, col] := neighbors == 3;
          }
          col := col + 1;
        }
        row := row + 1;
      }
      BoardEq(Crop(nextState, n), stepped, n);
    }

    /** The copy loop of update(): the top-left n by n corner of the input into the buffer. */
    static method CopyCorner(input: array2<bool>, dest: array2<bool>, n: nat)
      requires input.Length0 >= n && input.Length1 >= n
      requires dest.Length0 == n && dest.Length1 == n
      modifies dest
      ensures Crop(dest, n) == old(Crop(input, n))
      ensures forall r, c :: 0 <= r < input.Length0 && 0 <= c < input.Length1 ==> input[r, c] == old(input[r, c])
    {
      ghost var source := Crop(input, n);
      var row := 0;
      while row < n
        invariant 0 <= row <= n
        invariant forall r, c :: 0 <= r < row && 0 <= c < n ==> dest[r, c] == source[r][c]
        invariant forall r, c :: 0 <= r < input.Length0 && 0 <= c < input.Length1 ==> input[r, c] == old(input[r, c])
      {
        var col := 0;
        while col < n
          invariant 0 <= col <= n
          invariant forall r, c :: 0 <= r < row && 0 <= c < n ==> dest[r, c] == source[r][c]
          invariant forall c :: 0 <= c < col ==> dest[row, c] == source[row][c]
          invariant forall r, c :: 0 <= r < input.Length0 && 0 <= c < input.Length1 ==> input[r, c] == old(input[r, c])
        {
          dest[row, col] := input[row, col];
          col := col + 1;
        }
        row := row + 1;
      }
      BoardEq(Crop(dest, n), source, n);
    }

    /** The counter loop over the nine offsets, skipping the cell itself and off-board positions. */
    method CountNeighbors(row: int, col: int) returns (count: nat)
      requires Valid()
      ensures count == Neighbors(Crop(currentState, gridSize), gridSize, row, col)
    {
      ghost var b := Crop(currentState, gridSize);
      count := 0;
      var dr := -1;
      while dr <= 1
        invariant -1 <= dr <= 2
        invariant count == CountRows(b, gridSize, row, col, dr + 1)
      {
        var dc := -1;
        while dc <= 1
          invariant -1 <= dc <= 2
          invariant count == CountRows(b, gridSize, row, col, dr + 1) + RowOffsets(b, gridSize, row, col, dr, dc + 1)
        {
          assert RowOffsets(b, gridSize, row, col, dr, dc + 2) ==
            RowOffsets(b, gridSize, row, col, dr, dc + 1) + if dr == 0 && dc == 0 then 0 else Bit(Alive(b, gridSize, row + dr, col + dc));
          if !(dr == 0 && dc == 0) {
            var nr := row + dr;
            var nc := col + dc;
            if nr >= 0 && nr < gridSize && nc >= 0 && nc < gridSize {
              assert Alive(b, gridSize, nr, nc) == currentState[nr, nc];
              if currentState[nr, nc] {
                count := count + 1;
              }
            }
          }
          dc := dc + 1;
        }
        dr := dr + 1;
      }
    }

    /** The current buffer itself, not a copy. */
    method GetCurrentState() returns (state: array2<bool>)
      ensures state == currentState
    {
      state := currentState;
    }

    /** Writes an on-board cell of the current buffer; anything else is ignored. */
    method SetCell(row: int, col: int, alive: bool)
      requires Valid()
      modifies currentState
      ensures Contents(currentState) ==
        if 0 <= row < gridSize && 0 <= col < gridSize
        then old(Contents(currentState))[row := old(Contents(currentState))[row][col := alive]]
        else old(Contents(currentState))
    {
      ghost var before := Contents(currentState);
      if row >= 0 && row < gridSize && col >= 0 && col < gridSize {
        currentState[row, col] := alive;
        ghost var expected := before[row := before[row][col := alive]];
        BoardEq(Contents(currentState), expected, gridSize);
      } else {
        BoardEq(Contents(currentState), before, gridSize);
      }
    }

    /** Kills every cell of both buffers. */
    method Clear()
      requires Valid()
      modifies currentState, nextState
      ensures Contents(currentState) == Empty(gridSize) && Contents(nextState) == Empty(gridSize)
    {
      var row := 0;
      while row < gridSize
        invariant 0 <= row <= gridSize
        invariant forall r, c :: 0 <= r < row && 0 <= c < gridSize ==> !currentState[r, c] && !nextState[r, c]
      {
        var col := 0;
        while col < gridSize
          invariant 0 <= col <= gridSize
          invariant forall r, c :: 0 <= r < row && 0 <= c < gridSize ==> !currentState[r, c] && !nextState[r, c]
          invariant forall c :: 0 <= c < col ==> !currentState[row, c] && !nextState[row, c]
        {
          currentState[row, col] := false;
          nextState[row, col] := false;
          col := col + 1;
        }
        row := row + 1;
      }
      BoardEq(Contents(currentState), Empty(gridSize), gridSize);
      BoardEq(Contents(nextState), Empty(gridSize), gridSize);
    }
  }

  /** The loop's count is the count of the eight surrounding cells. */
  lemma NeighborsAreSurrounding(b: Board, n: nat, r: int, c: int)
    requires Square(b, n)
    ensures Neighbors(b, n, r, c) == Surrounding(b, n, r, c)
  {
    forall dr | -1 <= dr <= 1
      ensures RowOffsets(b, n, r, c, dr, 3) ==
        (if dr == 0 then 0 else Bit(Alive(b, n, r + dr, c))) + Bit(Alive(b, n, r + dr, c - 1)) + Bit(Alive(b, n, r + dr, c + 1))
    {
      assert RowOffsets(b, n, r, c, dr, 1) == Bit(Alive(b, n, r + dr, c - 1));
      assert RowOffsets(b, n, r, c, dr, 2) == RowOffsets(b, n, r, c, dr, 1) + if dr == 0 then 0 else Bit(Alive(b, n, r + dr, c));
    }
    assert CountRows(b, n, r, c, 1) == RowOffsets(b, n, r, c, -1, 3);
    assert CountRows(b, n, r, c, 2) == RowOffsets(b, n, r, c, -1, 3) + RowOffsets(b, n, r, c, 0, 3);
  }

  /**
   * A cell of the next generation follows Life's rule on the count of its
   * eight surrounding on-board cells.
   */
  lemma StepRule(b: Board, n: nat, r: nat, c: nat)
    requires Square(b, n) && r < n && c < n
    ensures Step(b, n)[r][c] ==
      if b[r][c] then Surrounding(b, n, r, c) == 2 || Surrounding(b, n, r, c) == 3
      else Surrounding(b, n, r, c) == 3
  {
    NeighborsAreSurrounding(b, n, r, c);
  }

  /** At most eight neighbours; at most three in a corner and five on an edge. */
  lemma NeighborsBounds(b: Board, n: nat, r: int, c: int)
    requires Square(b, n) && 0 <= r < n && 0 <= c < n
    ensures Neighbors(b, n, r, c) <= 8
    ensures (r == 0 || r == n - 1) && (c == 0 || c == n - 1) ==> Neighbors(b, n, r, c) <= 3
    ensures (r == 0 || r == n - 1 || c == 0 || c == n - 1) ==> Neighbors(b, n, r, c) <= 5
  {
    NeighborsAreSurrounding(b, n, r, c);
  }

  /** A dead board stays dead. */
  lemma EmptyStaysEmpty(n: nat)
    ensures Step(Empty(n), n) == Empty(n)
  {
    forall r, c | 0 <= r < n && 0 <= c < n
      ensures Step(Empty(n), n)[r][c] == Empty(n)[r][c]
    {
      NeighborsAreSurrounding(Empty(n), n, r, c);
    }
    BoardEq(Step(Empty(n), n), Empty(n), n);
  }

  function Transpose(b: Board, n: nat): (t: Board)
    requires Square(b, n)
    ensures Square(t, n)
    ensures forall r, c :: 0 <= r < n && 0 <= c < n ==> t[r][c] == b[c][r]
  {
    seq(n, r requires 0 <= r < n => seq(n, c requires 0 <= c < n => b[c][r]))
  }

  /** The rule treats rows and columns alike: stepping commutes with transposition. */
  lemma StepTranspose(b: Board, n: nat)
    requires Square(b, n)
    ensures Step(Transpose(b, n), n) == Transpose(Step(b, n), n)
  {
    var t := Transpose(b, n);
    forall r, c | 0 <= r < n && 0 <= c < n
      ensures Step(t, n)[r][c] == Transpose(Step(b, n), n)[r][c]
    {
      NeighborsAreSurrounding(t, n, r, c);
      NeighborsAreSurrounding(b, n, c, r);
      assert Surrounding(t, n, r, c) == Surrounding(b, n, c, r);
    }
    BoardEq(Step(t, n), Transpose(Step(b, n), n), n);
  }

  function VerticalBar(): (b: Board)
    ensures Square(b, 3)
  {
    [[false, true, false], [false, true, false], [false, true, false]]
  }

  function HorizontalBar(): (b: Board)
    ensures Square(b, 3)
  {
    [[false, false, false], [true, true, true], [false, false, false]]
  }

  /** The live neighbours of each cell of the vertical bar. */
  lemma BlinkerCount(r: nat, c: nat)
    requires r < 3 && c < 3
    ensures Surrounding(VerticalBar(), 3, r, c) == if r == 1 then (if c == 1 then 2 else 3) else (if c == 1 then 1 else 2)
  {
    var b := VerticalBar();
    if r == 0 {
      assert Alive(b, 3, 1, 1);
    } else if r == 1 {
      assert Alive(b, 3, 0, 1) && Alive(b, 3, 2, 1);
    } else {
      assert Alive(b, 3, 1, 1);
    }
  }

  lemma BlinkerCell(r: nat, c: nat)
    requires r < 3 && c < 3
    ensures Rule(VerticalBar()[r][c], Neighbors(VerticalBar(), 3, r, c)) == HorizontalBar()[r][c]
  {
    NeighborsAreSurrounding(VerticalBar(), 3, r, c);
    BlinkerCount(r, c);
  }

  /** The blinker: a vertical bar of three on a 3 by 3 board turns horizontal. */
  lemma Blinker()
    ensures Step(VerticalBar(), 3) == HorizontalBar()
  {
    forall r, c | 0 <= r < 3 && 0 <= c < 3
      ensures Step(VerticalBar(), 3)[r][c] == HorizontalBar()[r][c]
    {
      BlinkerCell(r, c);
    }
    BoardEq(Step(VerticalBar(), 3), HorizontalBar(), 3);
  }
}
