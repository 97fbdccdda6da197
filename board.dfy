/** The game board of src/tic_tac_toe/model.py: an N×N grid of optional
    symbols stored column-major, so that `columns[col][row]` is one cell. */
module Board {
  import opened Wrappers
  import opened Arith

  /** The two markers a player can place. */
  datatype Symbol = X | O

  /** A cell is empty (`None`) or holds a symbol. */
  type Cell = Option<Symbol>

  /** A board position written as the source writes it: (column, row). */
  type Coord = (int, int)

  /** Column-major grid: `g[c][r]` is the cell in column c, row r. */
  type Grid = seq<seq<Cell>>

  /** g has n columns of n cells each. */
  predicate IsSquare(g: Grid, n: nat) {
    |g| == n && forall c :: 0 <= c < n ==> |g[c]| == n
  }

  /** Every column of g has w cells. */
  predicate Uniform(g: Grid, w: nat) {
    forall c :: 0 <= c < |g| ==> |g[c]| == w
  }

  predicate InBounds(p: Coord, n: nat) {
    0 <= p.0 < n && 0 <= p.1 < n
  }

  /** p addresses an existing cell of g. */
  predicate OnGrid(g: Grid, p: Coord) {
    0 <= p.0 < |g| && 0 <= p.1 < |g[p.0]|
  }

  function CellAt(g: Grid, p: Coord): Cell
    requires OnGrid(g, p)
  {
    g[p.0][p.1]
  }

  /** `[None] * n` */
  function EmptyColumn(n: nat): seq<Cell> {
    seq(n, _ => None)
  }

  /** The grid `initialize_game_board` builds: n columns of n empty cells. */
  function EmptyGrid(n: nat): Grid {
    seq(n, _ => EmptyColumn(n))
  }

  /** Two grids of the same shape that agree on every cell are equal. */
  lemma GridsEqual(a: Grid, b: Grid)
    requires |a| == |b|
    requires forall c :: 0 <= c < |a| ==> |a[c]| == |b[c]|
    requires forall c, r :: 0 <= c < |a| && 0 <= r < |a[c]| ==> a[c][r] == b[c][r]
    ensures a == b
  {
    forall c | 0 <= c < |a|
      ensures a[c] == b[c]
    {
    }
  }

  /** The grid after `symbol` is written at p. */
  function Place(g: Grid, p: Coord, s: Symbol): (r: Grid)
    requires OnGrid(g, p)
    ensures |r| == |g|
    ensures forall c :: 0 <= c < |g| ==> |r[c]| == |g[c]|
    ensures forall c, w :: 0 <= c < |g| && 0 <= w < |g[c]| ==>
              r[c][w] == if (c, w) == p then Some(s) else g[c][w]
  {
    g[p.0 := g[p.0][p.1 := Some(s)]]
  }

  /** The cells of g in the order `GameBoard.__iter__` yields them:
      column by column, each column top to bottom. */
  function Flatten(g: Grid): seq<Cell> {
    if |g| == 0 then [] else g[0] + Flatten(g[1..])
  }

  lemma {:induction false} FlattenSnoc(g: Grid, i: nat)
    requires i < |g|
    ensures Flatten(g[..i + 1]) == Flatten(g[..i]) + g[i]
  {
    if i == 0 {
      assert g[..1][1..] == [];
    } else {
      var t := g[1..];
      assert g[..i + 1][1..] == t[..i];
      assert g[..i][1..] == t[..i - 1];
      FlattenSnoc(t, i - 1);
    }
  }

  lemma {:induction false} FlattenLength(g: Grid, w: nat)
    requires Uniform(g, w)
    ensures |Flatten(g)| == |g| * w
  {
    if |g| > 0 {
      FlattenLength(g[1..], w);
    }
  }

  /** Cell (c, r) is yielded at position c·w + r. */
  lemma {:induction false} FlattenAt(g: Grid, w: nat, c: nat, r: nat)
    requires Uniform(g, w) && c < |g| && r < w
    ensures |Flatten(g)| == |g| * w
    ensures c * w + r < |Flatten(g)| && Flatten(g)[c * w + r] == g[c][r]
  {
    FlattenLength(g, w);
    if c > 0 {
      FlattenAt(g[1..], w, c - 1, r);
      assert c * w + r == w + ((c - 1) * w + r);
    }
  }

  /** Position k of the iteration is cell (k / w, k % w): every yielded
      value is a cell and every cell is yielded exactly once. */
  lemma FlattenIndex(g: Grid, w: nat, k: nat)
    requires Uniform(g, w) && w > 0 && k < |g| * w
    ensures k < |Flatten(g)| && Flatten(g)[k] == g[k / w][k % w]
  {
    DivBelow(k, w, |g|);
    FlattenAt(g, w, k / w, k % w);
  }

  /** Some value yielded by the iteration is `None` iff some cell is empty. */
  lemma {:induction false} FlattenHasEmpty(g: Grid)
    ensures None in Flatten(g) <==> exists c, r :: 0 <= c < |g| && 0 <= r < |g[c]| && g[c][r] == None
  {
    if |g| > 0 {
      FlattenHasEmpty(g[1..]);
      if None in Flatten(g[1..]) {
        var c, r :| 0 <= c < |g[1..]| && 0 <= r < |g[1..][c]| && g[1..][c][r] == None;
        assert g[c + 1][r] == None;
      }
      if exists c, r :: 0 <= c < |g| && 0 <= r < |g[c]| && g[c][r] == None {
        var c, r :| 0 <= c < |g| && 0 <= r < |g[c]| && g[c][r] == None;
        if c == 0 {
          assert g[0][r] in g[0];
        } else {
          assert g[1..][c - 1][r] == None;
        }
      }
    }
  }

  /** A grid whose every cell is empty yields only `None`. */
  lemma {:induction false} FlattenAllNone(g: Grid)
    requires forall c, r :: 0 <= c < |g| && 0 <= r < |g[c]| ==> g[c][r] == None
    ensures forall k :: 0 <= k < |Flatten(g)| ==> Flatten(g)[k] == None
  {
    if |g| > 0 {
      FlattenAllNone(g[1..]);
      forall k | 0 <= k < |Flatten(g)|
        ensures Flatten(g)[k] == None
      {
        if k >= |g[0]| {
          assert Flatten(g)[k] == Flatten(g[1..])[k - |g[0]|];
        }
      }
    }
  }

  /** After a reset the iteration yields n² values, all of them `None`. */
  lemma ResetIterationAllEmpty(n: nat)
    ensures IsSquare(EmptyGrid(n), n)
    ensures |Flatten(EmptyGrid(n))| == n * n
    ensures forall k :: 0 <= k < n * n ==> Flatten(EmptyGrid(n))[k] == None
  {
    FlattenLength(EmptyGrid(n), n);
    FlattenAllNone(EmptyGrid(n));
  }

  /** The `GameBoard` object: `boardSize` is fixed at construction, the
      column list is rebuilt by a reset and written cell by cell. */
  class GameBoard {
    const boardSize: nat
    var columns: Grid

    /** A new board holds no columns until it is initialised. */
    constructor (size: nat)
      ensures boardSize == size && columns == []
    {
      boardSize := size;
      columns := [];
    }

    /** Rebuilds the grid as `boardSize` empty columns of `boardSize` cells. */
    method InitializeGameBoard()
      modifies this
      ensures columns == EmptyGrid(boardSize)
      ensures IsSquare(columns, boardSize)
    {
      var size := boardSize;
      columns := [];
      var i := 0;
      while i < size
        invariant 0 <= i <= size
        invariant |columns| == i
        invariant forall c :: 0 <= c < i ==> columns[c] == EmptyColumn(size)
      {
        columns := columns + [EmptyColumn(size)];
        i := i + 1;
      }
    }

    /** Drops the columns and initialises the board again. */
    method Clear()
      modifies this
      ensures columns == EmptyGrid(boardSize)
    {
      columns := [];
      InitializeGameBoard();
    }

    /** `board[(col, row)]` */
    function Get(key: Coord): Cell
      reads this
      requires OnGrid(columns, key)
    {
      columns[key.0][key.1]
    }

    /** `board[(col, row)] = value`: exactly the addressed cell changes. */
    method SetItem(key: Coord, value: Cell)
      requires OnGrid(columns, key)
      modifies this
      ensures |columns| == |old(columns)|
      ensures forall c :: 0 <= c < |columns| ==> |columns[c]| == |old(columns)[c]|
      ensures forall c, r :: 0 <= c < |columns| && 0 <= r < |columns[c]| ==>
                columns[c][r] == if (c, r) == key then value else old(columns)[c][r]
    {
      columns := columns[key.0 := columns[key.0][key.1 := value]];
    }

    /** Writes `symbol` at an empty position; an occupied position is
        reported (the source raises `ValueError`) and nothing changes. */
    method PlaceOnBoard(position: Coord, symbol: Symbol) returns (res: Outcome<Coord>)
      requires OnGrid(columns, position)
      modifies this
      ensures old(Get(position)).Some? ==> res == Fail(position) && columns == old(columns)
      ensures old(Get(position)).None? ==> res == Pass && columns == Place(old(columns), position, symbol)
    {
      if Get(position).Some? {
        return Fail(position);
      }
      ghost var before := columns;
      SetItem(position, Some(symbol));
      GridsEqual(columns, Place(before, position, symbol));
      res := Pass;
    }

    /** `iter(board)`: every cell, column by column. */
    method Iterate() returns (cells: seq<Cell>)
      ensures cells == Flatten(columns)
    {
      cells := [];
      var c := 0;
      while c < |columns|
        invariant 0 <= c <= |columns|
        invariant cells == Flatten(columns[..c])
      {
        var column := columns[c];
        var r := 0;
        while r < |column|
          invariant 0 <= r <= |column|
          invariant cells == Flatten(columns[..c]) + column[..r]
        {
          cells := cells + [column[r]];
          r := r + 1;
        }
        FlattenSnoc(columns, c);
        c := c + 1;
      }
      assert columns[..c] == columns;
    }
  }
}
