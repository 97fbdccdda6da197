/** The `TicTacToeGame` object of src/tic_tac_toe/model.py: it owns a
    board, the players, whose turn it is and the outcome, and updates them
    in place. Each method is proved against the definitions in `Rules`. */
module Game {
  import opened Wrappers
  import opened Board
  import opened Rules

  class TicTacToeGame {
    const board: GameBoard
    var players: seq<Player>
    var currentPlayer: Option<Player>
    var currentPlayerIdx: nat
    var winner: Winner
    var winningPath: Option<Path>

    /** The game and its board as one value. */
    function State(): GameState
      reads this, board
    {
      GameState(board.columns, board.boardSize, players, currentPlayer,
                currentPlayerIdx, winner, winningPath)
    }

    /** A new game: no players, nobody to move, turn index 0, in progress. */
    constructor (gameBoard: GameBoard)
      ensures board == gameBoard
      ensures State() == GameState(gameBoard.columns, gameBoard.boardSize, [], None, 0, InProgress, None)
    {
      board := gameBoard;
      players := [];
      currentPlayer := None;
      currentPlayerIdx := 0;
      winner := InProgress;
      winningPath := None;
    }

    /** `initialize`: resets the board and the outcome; players persist. */
    method Initialize()
      modifies board, this`winner, this`winningPath
      ensures State() == InitializeState(old(State()))
    {
      board.InitializeGameBoard();
      winner := InProgress;
      winningPath := None;
    }

    /** `set_player_turn` */
    method SetPlayerTurn(player: Player)
      modifies this`currentPlayer
      ensures currentPlayer == Some(player)
    {
      currentPlayer := Some(player);
    }

    /** `set_players`: stores the list, then makes its first player the
        current one; an empty list is stored and then raises. The turn
        index is left as it was. */
    method SetPlayers(ps: seq<Player>) returns (res: Outcome<GameError>)
      modifies this`players, this`currentPlayer
      ensures State() == WithPlayers(old(State()), ps)
      ensures res == if |ps| > 0 then Pass else Fail(NoPlayers)
    {
      players := ps;
      if |ps| == 0 {
        return Fail(NoPlayers);
      }
      currentPlayer := Some(ps[0]);
      res := Pass;
    }

    /** `game_over` */
    method GameOver(w: Winner)
      modifies this`winner
      ensures winner == w
    {
      winner := w;
    }

    /** `is_game_over` */
    function IsGameOver(): bool
      reads this
    {
      winner != InProgress
    }

    /** `evaluate_game_state`: scans the lines in generation order and
        records the first one a symbol fills; otherwise scans the cells for
        an empty one. */
    method EvaluateGameState() returns (e: Evaluation)
      requires Playable(board.columns, board.boardSize)
      modifies this`winningPath
      ensures e == Evaluate(board.columns, board.boardSize)
      ensures winningPath == if e.Win? then Some(e.path) else old(winningPath)
    {
      var g, n := board.columns, board.boardSize;
      var paths := GeneratePaths(n);
      var k := 0;
      while k < |paths|
        invariant 0 <= k <= |paths|
        invariant forall j :: 0 <= j < k ==> TestIfPathWon(g, n, paths[j]).None?
        invariant winningPath == old(winningPath)
      {
        assert paths[k] in paths;
        var v := TestIfPathWon(g, n, paths[k]);
        if v.Some? {
          winningPath := Some(paths[k]);
          assert WinningIndex(g, n) == Some(k);
          return Win(paths[k], v.value);
        }
        k := k + 1;
      }
      assert WinningIndex(g, n).None?;
      var cells := board.Iterate();
      FlattenHasEmpty(g);
      var i := 0;
      while i < |cells|
        invariant 0 <= i <= |cells|
        invariant forall j :: 0 <= j < i ==> cells[j] != None
      {
        if cells[i] == None {
          return Undecided;
        }
        i := i + 1;
      }
      return Stalemate;
    }

    /** `register_turn(position)` */
    method RegisterTurn(position: Coord) returns (res: Outcome<GameError>)
      requires CanRegister(State(), position)
      modifies this, board
      ensures var r := Turn(old(State()), position);
              && (r.Success? ==> res == Pass && State() == r.value)
              && (r.Failure? ==> res == Fail(r.error) && State() == old(State()))
    {
      if IsGameOver() {
        return Fail(GameAlreadyOver);
      }
      if currentPlayer.None? {
        return Fail(NoCurrentPlayer);
      }
      var player := currentPlayer.value;
      var placed := board.PlaceOnBoard(position, player.symbol);
      if placed.Fail? {
        return Fail(Occupied(position));
      }
      var state := EvaluateGameState();
      res := Pass;
      match state
      case Win(_, _) =>
        GameOver(Won(player));
      case Stalemate =>
        GameOver(Draw);
      case Undecided =>
        currentPlayerIdx := (currentPlayerIdx + 1) % |players|;
        currentPlayer := Some(players[currentPlayerIdx]);
    }
  }
}
