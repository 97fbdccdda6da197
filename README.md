# Tic-tac-toe engine and view models, modelled in Dafny

This project models the core of a tic-tac-toe program written in Python:

- **the rules engine** of `src/tic_tac_toe/model.py`. This is the column-major `GameBoard`, the candidate
  lines, `all_equal`, `test_if_path_won`, the evaluation after a move, and the `TicTacToeGame` object
  with its turn registration;
- **the console view model** `do_game_loop`, driven through a console view whose `send_buffer` is a
  FIFO;
- **the message contract** of the text interface (`textual_interface/communication_interface.py`).
  This covers the two command enumerations, the `SimpleMessage` envelope and its completion
  callback, and the one-to-one mapping from the view's `recv_*` calls to tagged messages;
- **the text interface's view model** (`textual_interface/view_model.py`). `GameLogicThread` keeps
  a `game_state`, handles one queued command per pass and then runs the actions of its state;
- **the decisions of the Qt view model** (`src/tic_tac_toe/qt_interface/run_ui.py`). These are
  settings validation, symbol hand-out, the tile click's (row, col) to (col, row) order, and the
  three-way `game_loop` dispatch.

Modules, one per concern:

| module | file | what it holds |
|---|---|---|
| `Wrappers` | wrappers.dfy | `Option`, `Outcome`, `Result` |
| `Arith`, `Seqs` | arith.dfy, seqs.dfy | small arithmetic and sequence facts the proofs call |
| `Board` | board.dfy | cells, the column-major grid `g[col][row]`, its iteration order, the `GameBoard` class |
| `Rules` | rules.dfy | the lines, the evaluation and the whole game state as values; `Turn` is one `register_turn` |
| `Game` | game.dfy | the `TicTacToeGame` class, each method proved equal to its `Rules` counterpart |
| `View` | view.dfy | the notifications a view model sends, one per `recv_*` method |
| `Console` | console.dfy | the console view and `do_game_loop`, proved equal to the pure run `PlayTurns` |
| `Protocol` | protocol.dfy | the enumerations, `SimpleMessage`, the text view and the `recv_*` to message mapping |
| `Orchestrator` | orchestrator.dfy | `GameLogicThread`, proved against the pure step functions `Handle`, `GameLoop`, `Iterate` and `RunPolls` |
| `QtUi` | qt_ui.dfy | settings validation, symbol choice, the tile click and the outcome dispatch |
| `Scenarios` | scenarios.dfy | a concrete 3×3 win on row 0 and a concrete draw |

Conventions:

- A position is `(column, row)`, as the source writes it.
- The outcome `winner` is `InProgress` (the source's `-1`), `Draw` (`None`) or `Won(player)`.
- A raised exception becomes an error value: `GameError`, `LoopError` or `VmError`.
- Each class is proved against a pure function of its state. `State()` of a game and `Current()` of
  the thread are those functions. The lemmas about the pure functions carry the properties.

Facts about the code that the model keeps:

- **Line order.** For each i the code yields `[(i, j) for j]` and then `[(j, i) for j]`. On the
  column-major board that is column i, then row i. The main and anti-diagonals come last. After X
  plays (0,0), (1,0) and (2,0), the recorded line is `[(0,0),(1,0),(2,0)]`, which is row 0
  (`Scenarios.RowZeroWin`).
- **Two front-ends, two notification sequences.**
  - The console loop shows the board after every accepted move and names `current_player` as the
    winner.
  - The text view model shows the board only before asking for a move and names `game.winner`.
- **Coordinates** are (column, row) throughout the engine; the Qt tile click swaps its
  (row, col) arguments to match.
- **Board size.** A board has a single `board_size` and is always square. Nothing in the engine
  checks the size, so sizes 0 and 1 are accepted.

## Model

| member | source | states |
|---|---|---|
| Board.Place | src/tic_tac_toe/model.py:38-40 | writing a symbol at p changes exactly cell p and keeps the grid's shape |
| Board.FlattenAt | src/tic_tac_toe/model.py:52-55 | on a grid whose columns all have w cells, iteration yields (columns)·w values, and cell (c, r) comes at position c·w + r |
| Board.FlattenIndex | src/tic_tac_toe/model.py:52-55 | iteration yields cell (k / size, k % size) at position k: column by column, each cell once |
| Board.FlattenHasEmpty | src/tic_tac_toe/model.py:136-138 | some iterated value is `None` iff some cell of the grid is empty |
| Board.ResetIterationAllEmpty | src/tic_tac_toe/model.py:28-36 | after a reset the board is size×size and iteration yields size² values, all `None` |
| Board.GameBoard.constructor | src/tic_tac_toe/model.py:24-26 | a new board keeps its size and has no columns yet |
| Board.GameBoard.InitializeGameBoard | src/tic_tac_toe/model.py:28-32 | the columns become `board_size` empty columns of `board_size` cells |
| Board.GameBoard.Clear | src/tic_tac_toe/model.py:34-36 | `clear` leaves the same all-empty square grid as initialisation |
| Board.GameBoard.Get | src/tic_tac_toe/model.py:44-48 | `board[(col, row)]` reads `columns[col][row]`; `PlaceOnBoard`'s refusal is stated through it (no contract of its own) |
| Board.GameBoard.SetItem | src/tic_tac_toe/model.py:38-40 | exactly the addressed cell takes the value; every other cell and the shape are unchanged |
| Board.GameBoard.PlaceOnBoard | src/tic_tac_toe/model.py:57-60 | an occupied cell is reported as an error and nothing changes; otherwise the grid becomes `Place(old, p, symbol)` |
| Board.GameBoard.Iterate | src/tic_tac_toe/model.py:52-55 | the cells come out column by column, each column top to bottom |
| Rules.GeneratePaths | src/tic_tac_toe/model.py:114-128 | every generated line has `size` positions, all on the board |
| Rules.GeneratePathsOrder | src/tic_tac_toe/model.py:114-128 | exactly 2·size+2 lines: column i at 2i, row i at 2i+1, then the main diagonal, then the anti-diagonal |
| Rules.AllEqual | src/tic_tac_toe/model.py:11-19 | true iff all elements are pairwise equal, which is iff all equal the first; empty and singleton inputs give true |
| Rules.TestIfPathWon | src/tic_tac_toe/model.py:107-112 | returns a symbol only when every cell of the line holds it; `None` when no symbol fills the line |
| Rules.FirstWin | src/tic_tac_toe/model.py:131-134 | the index found is the first line, in the given order, that a symbol fills; `None` iff no line is filled |
| Rules.Evaluate | src/tic_tac_toe/model.py:130-140 | a win iff some line is filled, with the first such line in generation order; otherwise a stalemate iff no cell is empty, else undecided |
| Rules.InitializeState | src/tic_tac_toe/model.py:81-84 | `initialize`: fresh all-empty square board, outcome in progress, no winning line; players and turn untouched |
| Rules.InitializeIdempotent | src/tic_tac_toe/model.py:81-84 | initialising twice equals initialising once |
| Rules.WithPlayers | src/tic_tac_toe/model.py:145-147 | `set_players`: the list is replaced and its first player is current; the turn index and the outcome are kept |
| Rules.PlayersFor | src/tic_tac_toe/model.py:256 | names zipped with the symbols: the first name plays X, the second O, further names dropped |
| Rules.Turn | src/tic_tac_toe/model.py:89-105 | an accepted turn keeps the board's size and the players, and leaves a current player |
| Rules.TurnSpec | src/tic_tac_toe/model.py:89-105 | refused iff the game is over (checked first), no current player, or the cell is occupied. Otherwise the symbol is placed. A completed line makes the mover the winner with the first filled line, and the turn stays. A full board is a draw with the turn kept. Otherwise the index advances modulo the player count and names the next player |
| Rules.WinningLineThroughMove | src/tic_tac_toe/model.py:96-99 | from a board without a filled line, the recorded line passes through the move and is filled with the mover's symbol |
| Game.TicTacToeGame.constructor | src/tic_tac_toe/model.py:73-79 | a new game has no players, nobody to move, turn index 0, outcome in progress and no line |
| Game.TicTacToeGame.Initialize | src/tic_tac_toe/model.py:81-84 | the new state is `InitializeState` of the old one |
| Game.TicTacToeGame.SetPlayerTurn | src/tic_tac_toe/model.py:86-87 | the given player becomes current |
| Game.TicTacToeGame.SetPlayers | src/tic_tac_toe/model.py:145-147 | the new state is `WithPlayers` of the old; an empty list is stored and then raises |
| Game.TicTacToeGame.IsGameOver | src/tic_tac_toe/model.py:149-150 | true exactly when the outcome is no longer in progress; `Rules.TurnSpec` and `RegisterTurn` state the refusal it drives (no contract of its own) |
| Game.TicTacToeGame.GameOver | src/tic_tac_toe/model.py:142-143 | the outcome becomes the one given |
| Game.TicTacToeGame.EvaluateGameState | src/tic_tac_toe/model.py:130-140 | returns `Evaluate` of the board; the winning line is recorded exactly when there is a win |
| Game.TicTacToeGame.RegisterTurn | src/tic_tac_toe/model.py:89-105 | the new state and the raised error are exactly those of `Turn`; a refused turn changes nothing |
| Console.ConsoleView.constructor | src/tic_tac_toe/model.py:202-208 | construction emits `'init'` into an otherwise empty send buffer |
| Console.ConsoleView.PopFront | src/tic_tac_toe/model.py:253 | `send_buffer.pop(0)` returns the oldest entry and removes it |
| Console.ConsoleView.Receive | src/tic_tac_toe/model.py:215-245 | the selection prompt emits both typed names; the move prompt emits the next typed move or fails when none is left; other calls only show |
| Console.PlayTurns | src/tic_tac_toe/model.py:258-267 | the loop never changes the players |
| Console.TurnAfter | src/tic_tac_toe/model.py:101-103 | after at least one advance the index is a valid player index |
| Console.TurnAfterIsSum | src/tic_tac_toe/model.py:101-103 | k advances from `start` give `(start + k) mod players` |
| Console.ExhaustedRunTurn | src/tic_tac_toe/model.py:258-263 | a run that stops for want of input advanced the turn once per move, and the player at that index is current |
| Console.CompletedRunReportsOutcome | src/tic_tac_toe/model.py:264-267 | a run that ends without error ends the game, and its last notification is the draw iff the game is drawn, else the winner's name |
| Console.FinishedRun | src/tic_tac_toe/model.py:258-267 | on a finished game the loop body never runs: only the outcome is reported |
| Console.ConsoleViewModel.constructor | src/tic_tac_toe/model.py:248-250 | keeps the game and the view |
| Console.ConsoleViewModel.OpenGame | src/tic_tac_toe/model.py:253-257 | pops `'init'`, asks for names, seats them as X and O, shows the board |
| Console.ConsoleViewModel.PlayOneTurn | src/tic_tac_toe/model.py:259-263 | one pass shows exactly the first steps of `PlayTurns`, and the rest of the run continues from the new game and the remaining moves |
| Console.ConsoleViewModel.LoopPass | src/tic_tac_toe/model.py:258-263 | one pass keeps the loop invariant, or ends the run as `PlayTurns` says |
| Console.ConsoleViewModel.Conclude | src/tic_tac_toe/model.py:264-267 | after the loop, reporting the outcome completes the run |
| Console.ConsoleViewModel.RunTurns | src/tic_tac_toe/model.py:258-267 | the loop ends in the state, transcript, unread input and error of `PlayTurns` |
| Console.ConsoleViewModel.ReportOutcome | src/tic_tac_toe/model.py:264-267 | shows the draw if the game is drawn, otherwise the current player's name |
| Console.ConsoleViewModel.DoGameLoop | src/tic_tac_toe/model.py:252-267 | the whole loop: selection, the empty board, then exactly the run `PlayTurns` from the seated game and the typed moves |
| Protocol.EnumValuesDistinct | textual_interface/communication_interface.py:18-38 | no two members of either enumeration share a value |
| Protocol.Encode | textual_interface/communication_interface.py:84-106 | each `recv_*` posts the tag whose value is its own method name |
| Protocol.Decode | textual_interface/communication_interface.py:110-117 | a message reads back only as a call whose method name is the tag's value |
| Protocol.EncodeDecode | textual_interface/communication_interface.py:84-106 | the mapping is one-to-one: a posted message reads back as its call, and a message that reads back as a call is that call's message |
| Protocol.EncodeInjective | textual_interface/communication_interface.py:84-106 | distinct calls post distinct messages |
| Protocol.EncodeAll | textual_interface/communication_interface.py:84-106 | a sequence of calls posts one message per call, in call order |
| Protocol.CallbackLog.Call | textual_interface/communication_interface.py:52 | calling a callback records it once, after those already called |
| Protocol.SimpleMessage.constructor | textual_interface/communication_interface.py:42-45 | command, data and callback stored as given |
| Protocol.SimpleMessage.Enter | textual_interface/communication_interface.py:47-48 | `__enter__` returns the message itself |
| Protocol.SimpleMessage.Exit | textual_interface/communication_interface.py:50-52 | the callback is called exactly once iff present, whether or not the block raised, and the raised error is passed on |
| Protocol.TextualView.constructor | textual_interface/communication_interface.py:59-60 | a new view has posted nothing |
| Protocol.TextualView.PostMessageToApp | textual_interface/communication_interface.py:80-82 | posts exactly one message with the command and data given |
| Protocol.TextualView.RecvGameWon | textual_interface/communication_interface.py:84-85 | posts one `GAME_WON` message carrying the winner |
| Protocol.TextualView.RecvGameDraw | textual_interface/communication_interface.py:87-88 | posts one `GAME_DRAW` message |
| Protocol.TextualView.RecvPlayerSelectionState | textual_interface/communication_interface.py:90-91 | posts one `SHOW_PLAYER_SELECT` message |
| Protocol.TextualView.RecvGameBeginState | textual_interface/communication_interface.py:93-94 | posts one `GAME_BEGIN` message |
| Protocol.TextualView.RecvMoveInquery | textual_interface/communication_interface.py:96-97 | posts one `MOVE_INQUERY` message |
| Protocol.TextualView.RecvGameBoardUpdated | textual_interface/communication_interface.py:99-100 | posts one `BOARD_UPDATED` message carrying the board and the coordinate |
| Protocol.TextualView.RecvPlayerTurnBegin | textual_interface/communication_interface.py:102-103 | posts one `TURN_BEGIN` message carrying the player |
| Protocol.TextualView.RecvShutdown | textual_interface/communication_interface.py:105-106 | posts one `SHUTDOWN` message |
| Protocol.TextualView.Emit | textual_interface/communication_interface.py:62-78 | the `emit_*` methods post nothing |
| Orchestrator.NamesChoice | textual_interface/view_model.py:38-41 | names zipped with X and O become the players and game-begin is shown, state unchanged; with no name `set_players` raises and nothing is shown |
| Orchestrator.MoveChoice | textual_interface/view_model.py:46-59 | a raised move changes nothing and shows nothing; an accepted one ends in `player_move_initialize` or `game_over` showing at most one notification (details: `MoveOutOfTurnRaises`, `AcceptedMoveOutcome`) |
| Orchestrator.Handle | textual_interface/view_model.py:104-111 | only the names and move handlers can raise or touch the game, and `INITIALIZED`, which has no entry, always raises (details: `CommandEffects`, `HandleKeepsReady`) |
| Orchestrator.AskForMove | textual_interface/view_model.py:77-81 | board (no coordinate), turn-begin, inquiry; its use is stated by `GameLoopActions` and `GameLogicThread.GameStatePlayerMove` (no contract of its own) |
| Orchestrator.Iterate | textual_interface/view_model.py:99-117 | the polled message's callback is called whether or not its handler raised, and a pass without a message never raises (details: `IterateKeepsReady`, `RunStopsAtFirstError`) |
| Orchestrator.PhaseNamesDistinct | textual_interface/view_model.py:18-24 | no two states share a name |
| Orchestrator.GameLoop | textual_interface/view_model.py:86-95 | the state actions never raise |
| Orchestrator.GameLoopActions | textual_interface/view_model.py:70-95 | `game_start` shows the selection and waits for names. `game_initialize` resets the game, then shows board, turn and inquiry, waiting for a move. `player_move_initialize` does the same without the reset. All other states do nothing. A case-by-case summary of `GameLoop`; the invariant it keeps is `GameLoopKeepsReady` |
| Orchestrator.CommandEffects | textual_interface/view_model.py:43-68 | screen-pushed goes to `game_initialize`, started to `game_start`, restart to `init`; reset shows game-begin; `INITIALIZED` has no handler and raises. A case-by-case summary of `Handle` for the commands that do not touch the game; the names and move commands are stated by `NamesChoice`, `MoveChoice`, `AcceptedMoveOutcome` and `MoveOutOfTurnRaises` |
| Orchestrator.MoveOutOfTurnRaises | textual_interface/view_model.py:46-59 | a move outside `await_player_move` raises before the game is touched; nothing changes and nothing is shown |
| Orchestrator.AcceptedMoveOutcome | textual_interface/view_model.py:46-57 | an accepted move that ends the game shows exactly the draw or the winner's name and goes to `game_over`; otherwise it goes to `player_move_initialize` silently; a refused move changes nothing |
| Orchestrator.HandleKeepsReady | textual_interface/view_model.py:104-111 | a handler that does not raise keeps the loop invariant and the board size |
| Orchestrator.GameLoopKeepsReady | textual_interface/view_model.py:86-95 | the state actions keep the loop invariant and the board size |
| Orchestrator.IterateKeepsReady | textual_interface/view_model.py:99-115 | a pass that does not raise keeps the loop invariant and the board size |
| Orchestrator.RunPolls | textual_interface/view_model.py:97-121 | the loop uses at most the polls given, and all of them unless a pass raised, keeping the invariant |
| Orchestrator.RunSplit | textual_interface/view_model.py:97-121 | running over polls is running over a prefix that raised nothing and then over the rest |
| Orchestrator.RunStopsAtFirstError | textual_interface/view_model.py:98-119 | the loop stops at the first pass that raises and reports that error; later polls are never looked at |
| Orchestrator.GameLogicThread.constructor | textual_interface/view_model.py:27-33 | a new thread is live and in `init` |
| Orchestrator.GameLogicThread.SetGameState | textual_interface/view_model.py:35-36 | the state becomes the one given |
| Orchestrator.GameLogicThread.DoPlayerNamesChoice | textual_interface/view_model.py:38-41 | state, game and posted messages are those of `NamesChoice` |
| Orchestrator.GameLogicThread.DoGameScreenPushed | textual_interface/view_model.py:43-44 | the state becomes `game_initialize` |
| Orchestrator.GameLogicThread.DoPlayerMoveChoice | textual_interface/view_model.py:46-59 | state, game, posted messages and raised error are those of the pure move handler |
| Orchestrator.GameLogicThread.DoGameStarted | textual_interface/view_model.py:61-62 | the state becomes `game_start` |
| Orchestrator.GameLogicThread.DoGameReset | textual_interface/view_model.py:64-65 | posts one game-begin message |
| Orchestrator.GameLogicThread.DoGameRestart | textual_interface/view_model.py:67-68 | the state becomes `init` |
| Orchestrator.GameLogicThread.Dispatch | textual_interface/view_model.py:104-111 | the handler the table picks leaves the state, game, messages and error of `Handle` |
| Orchestrator.GameLogicThread.GameStateGameStart | textual_interface/view_model.py:70-72 | shows the player selection, then waits for names |
| Orchestrator.GameLogicThread.GameStateGameInitialize | textual_interface/view_model.py:74-75 | the game becomes `InitializeState` of the old one |
| Orchestrator.GameLogicThread.GameStatePlayerMove | textual_interface/view_model.py:77-81 | posts board (no coordinate), turn-begin for the current player and inquiry, in that order, and waits for a move |
| Orchestrator.GameLogicThread.GameLoopOnce | textual_interface/view_model.py:86-95 | state, game and posted messages are those of `GameLoop` |
| Orchestrator.GameLogicThread.HandleMessage | textual_interface/view_model.py:102-111 | the `with` block: `Handle`'s effect, and the message's callback is called whatever the handler raised |
| Orchestrator.GameLogicThread.RunOnce | textual_interface/view_model.py:99-117 | one pass handles at most one message, then runs `game_loop` once unless the handler raised |
| Orchestrator.GameLogicThread.PollOnce | textual_interface/view_model.py:99-117 | one pass keeps the loop invariant, or ends the run with the session's error |
| Orchestrator.GameLogicThread.Run | textual_interface/view_model.py:97-121 | a live thread ends in the state, messages, callbacks and error of `RunPolls`; a thread no longer live does nothing: no state change, nothing posted, no callback fired |
| Orchestrator.GameLogicThread.PullThePlug | textual_interface/view_model.py:123-124 | the thread is no longer live |
| QtUi.ValidIffNoProblem | src/tic_tac_toe/qt_interface/run_ui.py:169-183 | the settings are valid iff no player has a problem against the players before it |
| QtUi.DuplicateBlamesLater | src/tic_tac_toe/qt_interface/run_ui.py:173-182 | of two players with one name, the later is blamed, after its length check |
| QtUi.ValidateGameSettings | src/tic_tac_toe/qt_interface/run_ui.py:169-183 | no message iff every name is at most 20 long, every player has a symbol, and names and symbols are pairwise distinct. Otherwise it returns `Message` of the first failing player (1-based) and its first failing check, in the order length, name, missing symbol, symbol |
| QtUi.Taken | src/tic_tac_toe/qt_interface/run_ui.py:189 | the taken set holds exactly the symbol names some player holds |
| QtUi.Choose | src/tic_tac_toe/qt_interface/run_ui.py:188-203 | a held symbol, even the chooser's own, is refused and nothing changes; otherwise only the chooser's symbol changes, to the one asked for |
| QtUi.ChooseKeepsSymbolsDistinct | src/tic_tac_toe/qt_interface/run_ui.py:195-203 | choosing keeps symbols distinct, and the images offered afterwards are exactly those no player holds |
| QtUi.SettingsViewModel.constructor | src/tic_tac_toe/qt_interface/model.py:47-50 | two players named " " without symbols; every image is offered |
| QtUi.SettingsViewModel.ChooseSymbol | src/tic_tac_toe/qt_interface/run_ui.py:188-203 | players, offered images and error become those of `Choose` |
| QtUi.RejectMessage | src/tic_tac_toe/qt_interface/game_settings_screen.py:174-177 | the text shown for a refused symbol, naming the 1-based player and the symbol; `Choose` states when it is shown (no contract of its own) |
| QtUi.TileClicked | src/tic_tac_toe/qt_interface/run_ui.py:219-229 | the slot lets an error escape exactly when the game runs without a current player, and shows a `ValueError` exactly when the game is over or the tile is taken (details: `TileClickPlacesColumnMajor`, `TileClickRefused`) |
| QtUi.GameLoopAction | src/tic_tac_toe/qt_interface/run_ui.py:231-246 | shows the turn iff in progress, the end screen iff drawn, the win animation iff won. The turn shown is the current player's, and the line animated is the game's winning path |
| QtUi.TileClickPlacesColumnMajor | src/tic_tac_toe/qt_interface/run_ui.py:219-229 | a click at (row, col) fills column col, row row and nothing else. The screen then shows the next player, the end screen, or animates a line through the tile filled with the mover's symbol |
| QtUi.TileClickRefused | src/tic_tac_toe/qt_interface/run_ui.py:219-226 | a click after the end or on a taken tile shows that `ValueError` and changes nothing |
| Scenarios.RowZeroWin | src/tic_tac_toe/model.py:114-134 | X on (0,0) and (1,0), playing (2,0), wins with row 0 `[(0,0),(1,0),(2,0)]`, and the turn stays with X |
| Scenarios.DrawnBoardHasNoLine | src/tic_tac_toe/model.py:130-140 | the full board X O X / X O O / O X X completes none of its eight lines |
| Scenarios.LastCellDraws | src/tic_tac_toe/model.py:96-105 | filling that board's last cell is a draw: no line is recorded and the turn does not move |

## Left out

- Rules.Turn: requires an initialised square board, an in-bounds position and, when a player is
  current, a non-empty player list.
  - Python would wrap negative indices and raise `IndexError` on large ones.
  - A current player with an empty player list arises in two ways:
    - `set_players(())` on a game that already has a current player;
    - `set_player_turn(p)` on a game that has no players (src/tic_tac_toe/model.py:86-87).

    In both cases `register_turn` places the symbol. It then fails dividing by zero, unless the move
    wins or fills the board (src/tic_tac_toe/model.py:96-105): a win calls `game_over(player)`, and a
    full board's `ValueError('Draw!')` is caught and calls `game_over(None)`, so those moves succeed.
    The requirement excludes this whole state, both the failing moves and the successful ones.
- Game.TicTacToeGame.RegisterTurn: has the same requirements as `Rules.Turn`, for the same reasons.
- Rules.Turn: its own ensures is deliberately slim, so that unfolding it stays cheap. The full
  case analysis is the lemma `Rules.TurnSpec`.
- Console.PlayTurns: its own ensures states only that the players are kept. What the run shows and
  how it ends is stated by `Console.ExhaustedRunTurn`, `Console.CompletedRunReportsOutcome` and
  `Console.FinishedRun`.
- Console.ConsoleViewModel.DoGameLoop:
  - It requires the typed moves to be on the board.
  - A typed value that is not an integer (`int(input())` raising) is not modelled.
  - The `assert` on the first buffer entry is a precondition.
  - It requires an initialised board (`Playable`). The console entry point
    (src/tic_tac_toe/model.py:270-274) never calls `initialize()`. In the shipped program, the first
    `register_turn` therefore raises `IndexError` from `__getitem__` (src/tic_tac_toe/model.py:44-50)
    before any move is placed. The model covers only runs on an initialised board.
    `Console.ConsoleViewModel.OpenGame` carries no such requirement.
- Console.ConsoleView.Receive: printing, the board printout and the view's `current_player` prompt
  state are not modelled. Keyboard input is the two names and the list of moves given at
  construction.
- Console.ConsoleViewModel.ReportOutcome: the console calls `recv_game_won` with the `Player`
  object. The model passes its name, which is all the view prints.
- Orchestrator.GameLogicThread.Dispatch: requires the message data to fit its command (names for
  the names choice, an on-board position for a move), as the app sends them. Ill-fitting data would
  raise inside the handler.
- Orchestrator.GameLogicThread.Run:
  - The thread, the queue, `sleep` and logging are not modelled.
  - The poll results are given as a list, where `None` is an empty queue.
  - `pull_the_plug` from another thread during a run is not modelled: the flag is read between runs.
- Orchestrator.GameLogicThread.GameStatePlayerMove: its `set_game_state` runs between two posts.
  Sequentially this is not observable, so the model sets the state after them.
- Protocol.SimpleMessage.Exit: what a callback does is not modelled; only which callbacks ran, in
  order, is recorded. `__str__` is not modelled.
- Protocol.TextualView.PostMessageToApp:
  - `asyncio.run` and the message pump are replaced by the list of posted messages.
  - A board message carries a snapshot of the grid. The source posts the live `GameBoard` object,
    which the app reads only when it renders (textual_interface/game_screen.py:50-69). In the
    source a later move can therefore show through an earlier message; in the model it cannot.
- QtUi.SettingsViewModel.ChooseSymbol:
  - It requires the symbol to be one of the images, as the combo box offers only those.
  - The colour carried over between graphics and the screen calls are not modelled.
- QtUi.GameLoopAction: disconnecting the click signal and starting the animation or the end
  screen are not modelled. The result names which of the three the screen does.
- QtUi.TileClicked: an error other than `ValueError`, which is the missing current player, is not
  caught by the slot. It is returned as `Uncaught`.
- Not part of this model:
  - the Qt screens, widgets, theming and the win-line animation geometry;
  - the Textual screens and app;
  - `initialize_game`, `settings_screen_sig_play_game` and the screen switching of the Qt view
    model;
  - the launch scripts.

  These are presentation over toolkits whose behaviour the model does not see.
- `GameBoard` does not model indexing with a non-tuple key (whole-column access or
  `NotImplementedError`) or `__str__`.
