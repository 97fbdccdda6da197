/** The decisions of the Qt view model, src/tic_tac_toe/qt_interface/run_ui.py,
    without its widgets: checking the game settings before play, handing
    out player symbols, turning a tile click into a move and choosing what
    the game screen shows after it. A player of the settings screen is
    reduced to a name and the name of the symbol image it holds. */
module QtUi {
  import opened Wrappers
  import opened Board
  import opened Rules

  /** A player as the settings screen edits it: its name and the name of
      its symbol image, if it chose one. */
  datatype SettingsPlayer = SettingsPlayer(name: string, graphic: Option<string>)

  /** The longest name the settings accept. */
  const MaxNameLength: nat := 20

  /** What `validate_game_settings` can find wrong with one player. */
  datatype Problem = NameTooLong | SameName | NoSymbol | SameSymbol

  /** A problem and the 1-based number of the player that has it. */
  datatype SettingsError = SettingsError(player: nat, problem: Problem)

  function DigitChar(d: nat): char
    requires d < 10
  {
    "0123456789"[d]
  }

  /** Decimal digits of n, as an f-string prints an int. */
  function NatToString(n: nat): string
    decreases n
  {
    if n < 10 then [DigitChar(n)] else NatToString(n / 10) + [DigitChar(n % 10)]
  }

  /** The message `validate_game_settings` returns for the error. */
  function Message(e: SettingsError): string {
    var who := "Player " + NatToString(e.player);
    match e.problem
    case NameTooLong => who + "'s name is too dang long!"
    case SameName => who + " has the same name as another player"
    case NoSymbol => who + " has not chosen a symbol"
    case SameSymbol => who + " has the same symbol as another player"
  }

  /** Some player before i has player i's name. */
  predicate NameUsedBefore(ps: seq<SettingsPlayer>, i: nat)
    requires i < |ps|
  {
    exists j :: 0 <= j < i && ps[j].name == ps[i].name
  }

  /** Some player before i holds the symbol player i holds. */
  predicate SymbolUsedBefore(ps: seq<SettingsPlayer>, i: nat)
    requires i < |ps|
  {
    exists j :: 0 <= j < i && ps[j].graphic == ps[i].graphic
  }

  /** The checks on player i, in order, against the players before it. */
  function ProblemAt(ps: seq<SettingsPlayer>, i: nat): Option<Problem>
    requires i < |ps|
  {
    if |ps[i].name| > MaxNameLength then Some(NameTooLong)
    else if NameUsedBefore(ps, i) then Some(SameName)
    else if ps[i].graphic.None? then Some(NoSymbol)
    else if SymbolUsedBefore(ps, i) then Some(SameSymbol)
    else None
  }

  /** The settings a game can start with: every name short enough, every
      player with a symbol, and no two players sharing a name or a symbol. */
  predicate AllValid(ps: seq<SettingsPlayer>) {
    && (forall i :: 0 <= i < |ps| ==> |ps[i].name| <= MaxNameLength && ps[i].graphic.Some?)
    && (forall i, j :: 0 <= i < j < |ps| ==> ps[i].name != ps[j].name && ps[i].graphic != ps[j].graphic)
  }

  /** The list is valid exactly when no player, checked against the
      players before it, has a problem. */
  lemma ValidIffNoProblem(ps: seq<SettingsPlayer>)
    ensures AllValid(ps) <==> forall i :: 0 <= i < |ps| ==> ProblemAt(ps, i).None?
  {
    if forall i :: 0 <= i < |ps| ==> ProblemAt(ps, i).None? {
      forall i | 0 <= i < |ps|
        ensures |ps[i].name| <= MaxNameLength && ps[i].graphic.Some?
      {
        assert ProblemAt(ps, i).None?;
      }
      forall i, j | 0 <= i < j < |ps|
        ensures ps[i].name != ps[j].name && ps[i].graphic != ps[j].graphic
      {
        assert ProblemAt(ps, j).None?;
        assert !NameUsedBefore(ps, j);
        assert !SymbolUsedBefore(ps, j);
      }
    }
    if AllValid(ps) {
      forall i | 0 <= i < |ps|
        ensures ProblemAt(ps, i).None?
      {
        assert !NameUsedBefore(ps, i);
        assert !SymbolUsedBefore(ps, i);
      }
    }
  }

  /** Of two players with the same name, the later one is blamed, and only
      after its length check. */
  lemma DuplicateBlamesLater(ps: seq<SettingsPlayer>, j: nat, k: nat)
    requires j < k < |ps| && ps[j].name == ps[k].name
    requires |ps[k].name| <= MaxNameLength
    ensures ProblemAt(ps, k) == Some(SameName)
  {
  }

  /** `validate_game_settings`: walks the players in order, collecting the
      names and symbols seen, and returns the message for the first
      problem; `problem` is that problem, for the proof. */
  method ValidateGameSettings(players: seq<SettingsPlayer>) returns (r: Option<string>, ghost problem: Option<SettingsError>)
    ensures r.None? <==> AllValid(players)
    ensures r == if problem.Some? then Some(Message(problem.value)) else None
    ensures problem.Some? ==>
              && 1 <= problem.value.player <= |players|
              && ProblemAt(players, problem.value.player - 1) == Some(problem.value.problem)
              && forall j :: 0 <= j < problem.value.player - 1 ==> ProblemAt(players, j).None?
  {
    var playerNames: set<string> := {};
    var playerSymbols: set<string> := {};
    var i := 0;
    while i < |players|
      invariant 0 <= i <= |players|
      invariant forall j :: 0 <= j < i ==> ProblemAt(players, j).None? && players[j].graphic.Some?
      invariant forall x :: x in playerNames <==> exists j :: 0 <= j < i && players[j].name == x
      invariant forall x :: x in playerSymbols <==> exists j :: 0 <= j < i && players[j].graphic == Some(x)
    {
      var player := players[i];
      if |player.name| > MaxNameLength {
        return Some(Message(SettingsError(i + 1, NameTooLong))), Some(SettingsError(i + 1, NameTooLong));
      }
      if player.name in playerNames {
        return Some(Message(SettingsError(i + 1, SameName))), Some(SettingsError(i + 1, SameName));
      }
      if player.graphic.None? {
        return Some(Message(SettingsError(i + 1, NoSymbol))), Some(SettingsError(i + 1, NoSymbol));
      }
      if player.graphic.value in playerSymbols {
        return Some(Message(SettingsError(i + 1, SameSymbol))), Some(SettingsError(i + 1, SameSymbol));
      }
      playerSymbols := playerSymbols + {player.graphic.value};
      playerNames := playerNames + {player.name};
      i := i + 1;
    }
    ValidIffNoProblem(players);
    return None, None;
  }

  /** The symbol names the players hold. */
  function Taken(ps: seq<SettingsPlayer>): (t: set<string>)
    ensures forall x :: x in t <==> exists i :: 0 <= i < |ps| && ps[i].graphic == Some(x)
  {
    set i | 0 <= i < |ps| && ps[i].graphic.Some? :: ps[i].graphic.value
  }

  /** No two players hold the same symbol. */
  predicate DistinctSymbols(ps: seq<SettingsPlayer>) {
    forall i, j :: 0 <= i < j < |ps| && ps[i].graphic.Some? ==> ps[i].graphic != ps[j].graphic
  }

  /** The message the settings screen shows for a refused symbol. */
  function RejectMessage(who: nat, symbol: string): string {
    "Could not set player " + NatToString(who + 1) + " to symbol " + symbol
  }

  /** The outcome of `settings_screen_sig_player_chose_symbol`: the
      players, the symbol names offered afterwards and the error shown. */
  datatype Choice = Choice(players: seq<SettingsPlayer>, offered: set<string>, error: Option<string>)

  /** Player `who` asks for `symbol`: refused when any player holds it,
      the chooser included; otherwise the chooser holds it and gives up
      the one it held. Either way the images not taken are offered. */
  function Choose(ps: seq<SettingsPlayer>, images: set<string>, who: nat, symbol: string): (c: Choice)
    requires who < |ps|
    ensures symbol in Taken(ps) ==> c.players == ps && c.error == Some(RejectMessage(who, symbol))
    ensures symbol !in Taken(ps) ==>
              && c.error.None?
              && |c.players| == |ps| && c.players[who].graphic == Some(symbol)
              && forall i :: 0 <= i < |ps| && i != who ==> c.players[i] == ps[i]
  {
    var taken := Taken(ps);
    if symbol in taken then Choice(ps, images - taken, Some(RejectMessage(who, symbol)))
    else
      var released := if ps[who].graphic.Some? && ps[who].graphic.value in taken
                      then taken - {ps[who].graphic.value} else taken;
      var ps' := ps[who := ps[who].(graphic := Some(symbol))];
      Choice(ps', images - (released + {symbol}), None)
  }

  /** Choosing keeps symbols distinct and offers exactly the images no
      player holds afterwards. */
  lemma ChooseKeepsSymbolsDistinct(ps: seq<SettingsPlayer>, images: set<string>, who: nat, symbol: string)
    requires who < |ps| && DistinctSymbols(ps)
    ensures var c := Choose(ps, images, who, symbol);
            && DistinctSymbols(c.players)
            && c.offered == images - Taken(c.players)
  {
    var c := Choose(ps, images, who, symbol);
    if symbol !in Taken(ps) {
      var old_ := ps[who].graphic;
      var t := Taken(ps);
      var released := if old_.Some? && old_.value in t then t - {old_.value} else t;
      forall x
        ensures x in Taken(c.players) <==> x in released + {symbol}
      {
        if x in released && x != symbol {
          var i :| 0 <= i < |ps| && ps[i].graphic == Some(x);
          assert i != who;
          assert c.players[i].graphic == Some(x);
        }
        if x in Taken(c.players) && x != symbol {
          var i :| 0 <= i < |c.players| && c.players[i].graphic == Some(x);
          assert i != who;
          assert ps[i].graphic == Some(x);
          if old_ == Some(x) {
            assert false;
          }
        }
      }
      assert Taken(c.players) == released + {symbol};
    }
  }

  /** The view model's settings: the players, the symbol images it has,
      and what the settings screen offers and shows. */
  class SettingsViewModel {
    var players: seq<SettingsPlayer>
    const images: set<string>
    var offered: set<string>
    var error: Option<string>

    /** `GameSettings()`: two players named " " without symbols; the
        settings screen offers every image. */
    constructor (images: set<string>)
      ensures players == [SettingsPlayer(" ", None), SettingsPlayer(" ", None)]
      ensures this.images == images && offered == images && error == None
    {
      players := [SettingsPlayer(" ", None), SettingsPlayer(" ", None)];
      this.images := images;
      offered := images;
      error := None;
    }

    /** `settings_screen_sig_player_chose_symbol` for the player at index
        `who`, asking for a symbol the screen offered. */
    method ChooseSymbol(who: nat, symbolName: string)
      requires who < |players| && symbolName in images
      modifies this`players, this`offered, this`error
      ensures Choice(players, offered, error) == Choose(old(players), images, who, symbolName)
    {
      var takenSymbols := Taken(players);
      error := None;
      if symbolName in takenSymbols {
        error := Some(RejectMessage(who, symbolName));
      } else {
        var player := players[who];
        if player.graphic.Some? && player.graphic.value in takenSymbols {
          takenSymbols := takenSymbols - {player.graphic.value};
        }
        players := players[who := player.(graphic := Some(symbolName))];
        takenSymbols := takenSymbols + {symbolName};
      }
      offered := images - takenSymbols;
    }
  }

  /** What `game_loop` makes the game screen do: show whose turn it is,
      go to the end screen, or animate the winning line (the end screen
      follows the animation). */
  datatype ScreenAction = ShowTurn(player: Option<Player>) | ShowEndScreen | AnimateWin(path: Option<Path>)

  /** `game_loop`: dispatch on the outcome. */
  function GameLoopAction(s: GameState): (a: ScreenAction)
    ensures a.ShowTurn? <==> s.winner == InProgress
    ensures a.ShowEndScreen? <==> s.winner == Draw
    ensures a.AnimateWin? <==> s.winner.Won?
    ensures a.ShowTurn? ==> a.player == s.current
    ensures a.AnimateWin? ==> a.path == s.winningPath
  {
    match s.winner
    case InProgress => ShowTurn(s.current)
    case Draw => ShowEndScreen
    case Won(_) => AnimateWin(s.winningPath)
  }

  /** What a tile click leads to: the move's `ValueError` shown on the
      screen, an error the slot does not catch, or the updated game and
      the screen action for it. */
  datatype TileReaction = ShowError(error: GameError) | Uncaught(error: GameError) | Updated(game: GameState, action: ScreenAction)

  /** `game_screen_tile_clicked(row, col)`: registers the move at
      (col, row). A full game or an occupied cell raise `ValueError`,
      which is shown; without a current player the error is not one the
      slot catches. */
  function TileClicked(s: GameState, row: int, col: int): (r: TileReaction)
    requires CanRegister(s, (col, row))
    ensures r.Uncaught? <==> s.winner == InProgress && s.current.None?
    ensures r.ShowError? <==> s.winner != InProgress || (s.current.Some? && CellAt(s.grid, (col, row)).Some?)
  {
    TurnSpec(s, (col, row));
    match Turn(s, (col, row))
    case Failure(e) => if e == NoCurrentPlayer then Uncaught(e) else ShowError(e)
    case Success(t) => Updated(t, GameLoopAction(t))
  }

  /** A click at row r and column c places the mover's symbol in column c,
      row r of the column-major board and nowhere else; after the click the
      screen shows the next player, the end screen after a draw, or
      animates a line through the clicked tile filled with the mover's
      symbol. */
  lemma TileClickPlacesColumnMajor(s: GameState, row: int, col: int)
    requires CanRegister(s, (col, row)) && s.winner == InProgress && s.current.Some?
    requires CellAt(s.grid, (col, row)).None?
    requires WinningIndex(s.grid, s.size).None?
    ensures var r := TileClicked(s, row, col);
            && r.Updated?
            && r.game.grid[col][row] == Some(s.current.value.symbol)
            && (forall c, w :: 0 <= c < s.size && 0 <= w < s.size && (c, w) != (col, row) ==>
                  r.game.grid[c][w] == s.grid[c][w])
            && (r.action.ShowTurn? ==>
                  r.action.player == Some(s.players[(s.turn + 1) % |s.players|]))
            && (r.action.AnimateWin? ==>
                  && r.action.path.Some? && (col, row) in r.action.path.value
                  && FilledWith(r.game.grid, r.action.path.value, s.current.value.symbol))
  {
    TurnSpec(s, (col, row));
    if Turn(s, (col, row)).value.winner.Won? {
      WinningLineThroughMove(s, (col, row));
    }
  }

  /** A click on a taken tile, or after the game ended, shows the error
      and changes nothing. */
  lemma TileClickRefused(s: GameState, row: int, col: int)
    requires CanRegister(s, (col, row))
    requires s.winner != InProgress || (s.current.Some? && CellAt(s.grid, (col, row)).Some?)
    ensures TileClicked(s, row, col) ==
              ShowError(if s.winner != InProgress then GameAlreadyOver else Occupied((col, row)))
  {
    TurnSpec(s, (col, row));
  }
}
