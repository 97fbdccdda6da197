/** Concrete positions on a 3×3 board that show the line order and the
    outcome rules at work. */
module Scenarios {
  import opened Wrappers
  import opened Board
  import opened Rules

  const Ex: Player := Player("x", X)
  const Oh: Player := Player("o", O)

  /** X on (0,0) and (1,0), O on (1,1) and (2,2), X to move. */
  function BeforeRowWin(): GameState {
    GameState([[Some(X), None, None], [Some(X), Some(O), None], [None, None, Some(O)]],
              3, [Ex, Oh], Some(Ex), 0, InProgress, None)
  }

  /** X completing the first cell of every column wins with row 0,
      [(0,0), (1,0), (2,0)], the second line in the generated order
      (column 0 comes first and is not complete); the turn stays with X. */
  lemma RowZeroWin()
    ensures var s := BeforeRowWin();
            && CanRegister(s, (2, 0))
            && Turn(s, (2, 0)).Success?
            && Turn(s, (2, 0)).value.winner == Won(Ex)
            && Turn(s, (2, 0)).value.winningPath == Some([(0, 0), (1, 0), (2, 0)])
            && Turn(s, (2, 0)).value.current == Some(Ex)
            && Turn(s, (2, 0)).value.turn == 0
  {
    var s := BeforeRowWin();
    var g := Place(s.grid, (2, 0), X);
    assert s.grid[2] == [None, None, Some(O)];
    assert s.grid[2][0 := Some(X)] == [Some(X), None, Some(O)];
    assert g == s.grid[2 := [Some(X), None, Some(O)]];
    GeneratePathsOrder(3);
    var paths := GeneratePaths(3);
    assert paths[0] == [(0, 0), (0, 1), (0, 2)];
    assert paths[1] == [(0, 0), (1, 0), (2, 0)];
    assert Playable(g, 3);
    assert PathCells(g, paths[0]) == [Some(X), None, None];
    assert TestIfPathWon(g, 3, paths[0]).None?;
    assert PathCells(g, paths[1]) == [Some(X), Some(X), Some(X)];
    assert TestIfPathWon(g, 3, paths[1]) == Some(X);
    assert paths[1..][0] == paths[1];
    assert FirstWin(g, 3, paths[1..]) == Some(0);
    assert WinningIndex(g, 3) == Some(1);
    TurnSpec(s, (2, 0));
  }

  /** Columns (X, X, O), (O, O, X) and (X, O, _), X to move: drawn as
      rows X O X / X O O / O X _ show it. */
  function BeforeDraw(): GameState {
    GameState([[Some(X), Some(X), Some(O)], [Some(O), Some(O), Some(X)], [Some(X), Some(O), None]],
              3, [Ex, Oh], Some(Ex), 0, InProgress, None)
  }

  /** The full board of the draw scenario completes none of its eight lines. */
  lemma DrawnBoardHasNoLine(g: Grid)
    requires g == [[Some(X), Some(X), Some(O)], [Some(O), Some(O), Some(X)], [Some(X), Some(O), Some(X)]]
    ensures Playable(g, 3) && WinningIndex(g, 3).None?
  {
    GeneratePathsOrder(3);
    var paths := GeneratePaths(3);
    assert paths[0] == [(0, 0), (0, 1), (0, 2)];
    assert paths[1] == [(0, 0), (1, 0), (2, 0)];
    assert paths[2] == [(1, 0), (1, 1), (1, 2)];
    assert paths[3] == [(0, 1), (1, 1), (2, 1)];
    assert paths[4] == [(2, 0), (2, 1), (2, 2)];
    assert paths[5] == [(0, 2), (1, 2), (2, 2)];
    assert paths[6] == [(0, 0), (1, 1), (2, 2)];
    assert paths[7] == [(0, 2), (1, 1), (2, 0)];
    Mixed(g, paths[0], 0, 2);
    Mixed(g, paths[1], 0, 1);
    Mixed(g, paths[2], 0, 2);
    Mixed(g, paths[3], 0, 1);
    Mixed(g, paths[4], 0, 1);
    Mixed(g, paths[5], 0, 1);
    Mixed(g, paths[6], 0, 1);
    Mixed(g, paths[7], 0, 2);
    forall j | 0 <= j < |paths|
      ensures TestIfPathWon(g, 3, paths[j]).None?
    {
      assert j in {0, 1, 2, 3, 4, 5, 6, 7};
    }
  }

  /** A line with two different cells on it is not won. */
  lemma Mixed(g: Grid, path: Path, a: nat, b: nat)
    requires Playable(g, 3) && LineOn(path, 3) && a < 3 && b < 3
    requires CellAt(g, path[a]) != CellAt(g, path[b])
    ensures TestIfPathWon(g, 3, path).None?
  {
  }

  /** Filling the last cell without completing a line is a draw: the
      outcome is `Draw`, no line is recorded and the turn does not move. */
  lemma LastCellDraws()
    ensures var s := BeforeDraw();
            && CanRegister(s, (2, 2))
            && Turn(s, (2, 2)).Success?
            && Turn(s, (2, 2)).value.winner == Draw
            && Turn(s, (2, 2)).value.winningPath == None
            && Turn(s, (2, 2)).value.current == Some(Ex)
  {
    var s := BeforeDraw();
    var g := Place(s.grid, (2, 2), X);
    assert s.grid[2][2 := Some(X)] == [Some(X), Some(O), Some(X)];
    assert g == s.grid[2 := [Some(X), Some(O), Some(X)]];
    DrawnBoardHasNoLine(g);
    assert !HasEmptyCell(g);
    TurnSpec(s, (2, 2));
  }
}
