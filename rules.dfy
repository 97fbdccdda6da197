/** The rules of `TicTacToeGame` (src/tic_tac_toe/model.py) as pure
    definitions: the candidate lines, `all_equal`, `test_if_path_won`,
    the evaluation after a placement and the effect of one turn on the
    whole game state. The `Game` module proves its class against these. */
module Rules {
  import opened Wrappers
  import opened Board

  datatype Player = Player(name: string, symbol: Symbol)

  /** The `winner` field: -1 while the game runs, `None` after a draw,
      otherwise the Player who won. */
  datatype Winner = InProgress | Draw | Won(player: Player)

  /** A candidate line: the positions it visits, in order. */
  type Path = seq<Coord>

  /** `[(i, j) for j]`: column i of the column-major board. */
  function ColumnLine(n: nat, i: int): Path {
    seq(n, j => (i, j))
  }

  /** `[(j, i) for j]`: row i. */
  function RowLine(n: nat, i: int): Path {
    seq(n, j => (j, i))
  }

  function MainDiagonal(n: nat): Path {
    seq(n, j => (j, j))
  }

  function AntiDiagonal(n: nat): Path {
    seq(n, j => (j, n - 1 - j))
  }

  lemma {:induction false} LinesFromOnBoard(n: nat, i: nat)
    ensures LinesOn(LinesFrom(n, i), n)
    decreases n - i
  {
    if i < n {
      LinesFromOnBoard(n, i + 1);
    }
  }

  /** Column i, row i, column i+1, row i+1, … up to n-1. */
  function LinesFrom(n: nat, i: nat): seq<Path>
    decreases n - i
  {
    if i >= n then [] else [ColumnLine(n, i), RowLine(n, i)] + LinesFrom(n, i + 1)
  }

  /** p has n positions, all on an n×n board. */
  predicate LineOn(p: Path, n: nat) {
    |p| == n && forall k :: 0 <= k < n ==> InBounds(p[k], n)
  }

  predicate LinesOn(paths: seq<Path>, n: nat) {
    forall p :: p in paths ==> LineOn(p, n)
  }

  /** The lines `generate_paths` yields, in its order; each has n
      positions, all inside the board. */
  function GeneratePaths(n: nat): (paths: seq<Path>)
    ensures LinesOn(paths, n)
  {
    LinesFromOnBoard(n, 0);
    LinesFrom(n, 0) + [MainDiagonal(n), AntiDiagonal(n)]
  }

  lemma {:induction false} LinesFromAt(n: nat, i: nat)
    requires i <= n
    ensures |LinesFrom(n, i)| == 2 * (n - i)
    ensures forall m :: i <= m < n ==>
              LinesFrom(n, i)[2 * (m - i)] == ColumnLine(n, m) &&
              LinesFrom(n, i)[2 * (m - i) + 1] == RowLine(n, m)
    decreases n - i
  {
    if i < n {
      LinesFromAt(n, i + 1);
      var tail := LinesFrom(n, i + 1);
      assert LinesFrom(n, i) == [ColumnLine(n, i), RowLine(n, i)] + tail;
      forall m | i < m < n
        ensures LinesFrom(n, i)[2 * (m - i)] == ColumnLine(n, m)
        ensures LinesFrom(n, i)[2 * (m - i) + 1] == RowLine(n, m)
      {
        assert 2 * (m - i) == 2 + 2 * (m - (i + 1));
      }
    }
  }

  /** `generate_paths` yields 2·n+2 lines: for each i column i then row i,
      then the main diagonal, then the anti-diagonal. */
  lemma GeneratePathsOrder(n: nat)
    ensures |GeneratePaths(n)| == 2 * n + 2
    ensures forall i :: 0 <= i < n ==>
              GeneratePaths(n)[2 * i] == ColumnLine(n, i) &&
              GeneratePaths(n)[2 * i + 1] == RowLine(n, i)
    ensures GeneratePaths(n)[2 * n] == MainDiagonal(n)
    ensures GeneratePaths(n)[2 * n + 1] == AntiDiagonal(n)
  {
    LinesFromAt(n, 0);
  }


  /** The property `all_equal` decides: every element equals the first
      (so it holds of the empty and of a one-element sequence). */
  predicate AllSame<T(==)>(xs: seq<T>) {
    forall i :: 0 <= i < |xs| ==> xs[i] == xs[0]
  }

  /** `all_equal`: walks the input, comparing each element with the first. */
  method AllEqual<T(==)>(xs: seq<T>) returns (b: bool)
    ensures b <==> forall i, j :: 0 <= i < |xs| && 0 <= j < |xs| ==> xs[i] == xs[j]
    ensures b <==> AllSame(xs)
  {
    if |xs| == 0 {
      return true;
    }
    var cv := xs[0];
    var i := 1;
    while i < |xs|
      invariant 1 <= i <= |xs|
      invariant forall j :: 0 <= j < i ==> xs[j] == cv
    {
      if xs[i] != cv {
        return false;
      }
      i := i + 1;
    }
    return true;
  }

  predicate PathOnGrid(g: Grid, path: Path) {
    forall k :: 0 <= k < |path| ==> OnGrid(g, path[k])
  }

  /** `board[x] for x in path` */
  function PathCells(g: Grid, path: Path): seq<Cell>
    requires PathOnGrid(g, path)
  {
    seq(|path|, k requires 0 <= k < |path| => CellAt(g, path[k]))
  }

  /** Every cell on the path holds s. */
  predicate FilledWith(g: Grid, path: Path, s: Symbol) {
    forall k :: 0 <= k < |path| ==> OnGrid(g, path[k]) && CellAt(g, path[k]) == Some(s)
  }

  /** An initialised board of n > 0 columns. */
  predicate Playable(g: Grid, n: nat) {
    n > 0 && IsSquare(g, n)
  }

  /** `test_if_path_won`: the common value of the cells on the path when
      it is a symbol, otherwise `None`. */
  function TestIfPathWon(g: Grid, n: nat, path: Path): (r: Option<Symbol>)
    requires Playable(g, n) && LineOn(path, n)
    ensures r.Some? ==> FilledWith(g, path, r.value)
    ensures r.None? ==> forall s :: !FilledWith(g, path, s)
  {
    assert PathOnGrid(g, path);
    var cells := PathCells(g, path);
    assert forall k :: 0 <= k < |path| ==> cells[k] == CellAt(g, path[k]);
    if AllSame(cells) && cells[0].Some? then cells[0] else None
  }

  /** Index of the first line, in the order given, that one symbol fills. */
  function FirstWin(g: Grid, n: nat, paths: seq<Path>): (r: Option<nat>)
    requires Playable(g, n) && LinesOn(paths, n)
    ensures r.Some? ==> r.value < |paths| && TestIfPathWon(g, n, paths[r.value]).Some?
    ensures r.Some? ==> forall j :: 0 <= j < r.value ==> TestIfPathWon(g, n, paths[j]).None?
    ensures r.None? ==> forall j :: 0 <= j < |paths| ==> TestIfPathWon(g, n, paths[j]).None?
    decreases |paths|
  {
    if |paths| == 0 then None
    else if TestIfPathWon(g, n, paths[0]).Some? then Some(0)
    else match FirstWin(g, n, paths[1..])
      case None => None
      case Some(k) => Some(k + 1)
  }

  /** Index of the line `evaluate_game_state` records, if any. */
  function WinningIndex(g: Grid, n: nat): Option<nat>
    requires Playable(g, n)
  {
    FirstWin(g, n, GeneratePaths(n))
  }

  predicate HasEmptyCell(g: Grid) {
    exists c, r :: 0 <= c < |g| && 0 <= r < |g[c]| && g[c][r] == None
  }

  /** What `evaluate_game_state` concludes: a line is won (and recorded),
      the game goes on, or the board is full (it raises `ValueError('Draw!')`). */
  datatype Evaluation = Win(path: Path, symbol: Symbol) | Undecided | Stalemate

  /** The first generated line some symbol fills wins; otherwise a board
      without an empty cell is a stalemate. */
  function Evaluate(g: Grid, n: nat): (e: Evaluation)
    requires Playable(g, n)
    ensures e.Win? <==> WinningIndex(g, n).Some?
    ensures e.Win? ==>
              e.path == GeneratePaths(n)[WinningIndex(g, n).value] &&
              FilledWith(g, e.path, e.symbol)
    ensures e.Stalemate? <==> !e.Win? && !HasEmptyCell(g)
    ensures e.Undecided? <==> !e.Win? && HasEmptyCell(g)
  {
    var paths := GeneratePaths(n);
    match FirstWin(g, n, paths)
    case Some(k) => Win(paths[k], TestIfPathWon(g, n, paths[k]).value)
    case None =>
      FlattenHasEmpty(g);
      if None in Flatten(g) then Undecided else Stalemate
  }

  /** The fields of a `TicTacToeGame` and of its board, as one value. */
  datatype GameState = GameState(
    grid: Grid,
    size: nat,
    players: seq<Player>,
    current: Option<Player>,
    turn: nat,
    winner: Winner,
    winningPath: Option<Path>)

  /** Why `register_turn` or `set_players` raises. */
  datatype GameError =
    | GameAlreadyOver        // ValueError('Game is over, no placing peices')
    | NoCurrentPlayer        // no player set yet: `None.symbol` raises
    | Occupied(position: Coord)  // ValueError from `place_on_board`
    | NoPlayers              // `set_players(())`: `players[0]` raises

  /** Advancing the turn divides by the number of players; a current
      player only exists once some players were set. */
  predicate TurnReady(s: GameState) {
    s.current.Some? ==> |s.players| > 0
  }

  /** What `register_turn(pos)` needs of its caller: an initialised board
      and a position inside it. */
  predicate CanRegister(s: GameState, pos: Coord) {
    Playable(s.grid, s.size) && InBounds(pos, s.size) && TurnReady(s)
  }

  /** `initialize`: fresh empty board, outcome reset, players untouched. */
  function InitializeState(s: GameState): (t: GameState)
    ensures IsSquare(t.grid, t.size) && !HasEmptyCell(t.grid) == (t.size == 0)
    ensures forall c, r :: 0 <= c < t.size && 0 <= r < t.size ==> t.grid[c][r] == None
    ensures t.winner == InProgress && t.winningPath == None
    ensures t.size == s.size && t.players == s.players && t.current == s.current && t.turn == s.turn
  {
    var t := s.(grid := EmptyGrid(s.size), winner := InProgress, winningPath := None);
    assert t.size > 0 ==> t.grid[0][0] == None;
    t
  }

  /** `set_players`: the player list is replaced and the first player is
      to move; the turn index is not reset. */
  function WithPlayers(s: GameState, ps: seq<Player>): (t: GameState)
    ensures t.players == ps && t.grid == s.grid && t.size == s.size && t.turn == s.turn
    ensures t.winner == s.winner && t.winningPath == s.winningPath
    ensures |ps| > 0 ==> t.current == Some(ps[0]) && TurnReady(t)
    ensures |ps| == 0 ==> t.current == s.current
  {
    s.(players := ps, current := if |ps| > 0 then Some(ps[0]) else s.current)
  }

  /** `zip(names, Symbol)`: the first name plays X, the second O, any
      further names are dropped. */
  function PlayersFor(names: seq<string>): (ps: seq<Player>)
    ensures |ps| == if |names| < 2 then |names| else 2
    ensures forall i :: 0 <= i < |ps| ==> ps[i].name == names[i]
    ensures |ps| > 0 ==> ps[0].symbol == X
    ensures |ps| > 1 ==> ps[1].symbol == O
  {
    if |names| == 0 then []
    else if |names| == 1 then [Player(names[0], X)]
    else [Player(names[0], X), Player(names[1], O)]
  }

  /** `register_turn(pos)`: refused after the game ended, without a current
      player, or on an occupied cell (all leave the game untouched);
      otherwise the mover's symbol is placed and the board evaluated. */
  function Turn(s: GameState, pos: Coord): (r: Result<GameState, GameError>)
    requires CanRegister(s, pos)
    ensures r.Success? ==>
              var t := r.value;
              CanRegister(t, pos) && t.current.Some? && t.size == s.size && t.players == s.players
  {
    if s.winner != InProgress then Failure(GameAlreadyOver)
    else if s.current.None? then Failure(NoCurrentPlayer)
    else if CellAt(s.grid, pos).Some? then Failure(Occupied(pos))
    else
      var player := s.current.value;
      var g := Place(s.grid, pos, player.symbol);
      assert Playable(g, s.size);
      match Evaluate(g, s.size)
      case Win(path, _) => Success(s.(grid := g, winner := Won(player), winningPath := Some(path)))
      case Stalemate => Success(s.(grid := g, winner := Draw))
      case Undecided =>
        var next := (s.turn + 1) % |s.players|;
        Success(s.(grid := g, turn := next, current := Some(s.players[next])))
  }

  /** What `register_turn(pos)` does, case by case: the three refusals
      and their order, the placed symbol, and how a win, a draw or an
      ordinary move leaves the outcome, the recorded line and the turn. */
  lemma TurnSpec(s: GameState, pos: Coord)
    requires CanRegister(s, pos)
    ensures s.winner != InProgress ==> Turn(s, pos) == Failure(GameAlreadyOver)
    ensures Turn(s, pos).Failure? <==> s.winner != InProgress || s.current.None? || CellAt(s.grid, pos).Some?
    ensures Turn(s, pos).Failure? && s.winner == InProgress && s.current.Some? ==> Turn(s, pos) == Failure(Occupied(pos))
    ensures Turn(s, pos).Success? ==>
              var t := Turn(s, pos).value;
              && t.grid == Place(s.grid, pos, s.current.value.symbol)
              && t.size == s.size && t.players == s.players
              && CanRegister(t, pos) && t.current.Some?
    ensures Turn(s, pos).Success? ==>
              var t, first := Turn(s, pos).value, WinningIndex(Turn(s, pos).value.grid, s.size);
              && (t.winner.Won? <==> first.Some?)
              && (t.winner.Won? ==>
                    && t.winner.player == s.current.value
                    && t.winningPath == Some(GeneratePaths(s.size)[first.value])
                    && t.current == s.current && t.turn == s.turn)
    ensures Turn(s, pos).Success? ==>
              var t := Turn(s, pos).value;
              && (t.winner == Draw <==> !t.winner.Won? && !HasEmptyCell(t.grid))
              && (t.winner == Draw ==>
                    t.current == s.current && t.turn == s.turn && t.winningPath == s.winningPath)
              && (t.winner == InProgress ==>
                    && t.turn == (s.turn + 1) % |s.players|
                    && t.current == Some(s.players[t.turn])
                    && t.winningPath == s.winningPath)
  {
  }

  /** A move that completes a line, on a board where no line was complete,
      completes it through the moved-to cell and with the mover's symbol:
      the symbol of the recorded line is always the winner's. */
  lemma WinningLineThroughMove(s: GameState, pos: Coord)
    requires CanRegister(s, pos) && Turn(s, pos).Success?
    requires WinningIndex(s.grid, s.size).None?
    requires Turn(s, pos).value.winner.Won?
    ensures var t := Turn(s, pos).value;
            && t.winningPath.Some?
            && pos in t.winningPath.value
            && FilledWith(t.grid, t.winningPath.value, s.current.value.symbol)
  {
    TurnSpec(s, pos);
    var t := Turn(s, pos).value;
    var n := s.size;
    var paths := GeneratePaths(n);
    var k := WinningIndex(t.grid, n).value;
    var p := paths[k];
    assert p in paths;
    var sym := TestIfPathWon(t.grid, n, p).value;
    assert FilledWith(t.grid, p, sym);
    assert !FilledWith(s.grid, p, sym);
    var m :| 0 <= m < |p| && CellAt(s.grid, p[m]) != Some(sym);
    assert CellAt(t.grid, p[m]) == Some(sym);
    assert p[m] == pos;
    assert CellAt(t.grid, pos) == Some(s.current.value.symbol);
    assert sym == s.current.value.symbol;
  }

  /** `initialize` twice leaves the same state as once. */
  lemma InitializeIdempotent(s: GameState)
    ensures InitializeState(InitializeState(s)) == InitializeState(s)
  {
  }
}
