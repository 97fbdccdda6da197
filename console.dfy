/** The console front-end of src/tic_tac_toe/model.py:
    `ConsoleTicTacToeGameViewModel.do_game_loop` driving a game through a
    console view whose `send_buffer` is a FIFO. Keyboard input is replaced
    by the two names and the (column, row) pairs the user will type; what
    the console shows is the transcript of the view's `recv_*` calls. */
module Console {
  import opened Wrappers
  import opened Board
  import opened Rules
  import opened Game
  import opened View
  import opened Arith
  import opened Seqs

  /** What the console view appends to its `send_buffer`: the `'init'`
      token, a names tuple, or a position. */
  datatype Sent = InitToken | NamesSent(names: seq<string>) | PositionSent(position: Coord)

  /** Why `do_game_loop` stops early: the user has nothing more to type,
      or `register_turn` raised (the exception leaves the loop). */
  datatype LoopError = InputExhausted | TurnRejected(error: GameError)

  class ConsoleView {
    var sendBuffer: seq<Sent>
    const typedNames: (string, string)
    var typedMoves: seq<Coord>
    var transcript: seq<Notification>

    /** Construction emits `'init'`. */
    constructor (names: (string, string), moves: seq<Coord>)
      ensures sendBuffer == [InitToken] && typedNames == names
      ensures typedMoves == moves && transcript == []
    {
      sendBuffer := [InitToken];
      typedNames := names;
      typedMoves := moves;
      transcript := [];
    }

    /** `send_buffer.pop(0)` */
    method PopFront() returns (item: Sent)
      requires sendBuffer != []
      modifies this`sendBuffer
      ensures item == old(sendBuffer)[0] && sendBuffer == old(sendBuffer)[1..]
    {
      item := sendBuffer[0];
      sendBuffer := sendBuffer[1..];
    }

    /** One `recv_*` call. The selection prompt reads both names and emits
        them; the move prompt reads the next position and emits it;
        turn-begin, board and outcome calls only show something. */
    method Receive(n: Notification) returns (res: Outcome<LoopError>)
      modifies this`sendBuffer, this`typedMoves, this`transcript
      ensures transcript == old(transcript) + [n]
      ensures n == RecvPlayerSelectionState ==>
                && res == Pass && typedMoves == old(typedMoves)
                && sendBuffer == old(sendBuffer) + [NamesSent([typedNames.0, typedNames.1])]
      ensures n == RecvMoveInquery && old(typedMoves) == [] ==>
                res == Fail(InputExhausted) && sendBuffer == old(sendBuffer) && typedMoves == []
      ensures n == RecvMoveInquery && old(typedMoves) != [] ==>
                && res == Pass && typedMoves == old(typedMoves)[1..]
                && sendBuffer == old(sendBuffer) + [PositionSent(old(typedMoves)[0])]
      ensures n != RecvPlayerSelectionState && n != RecvMoveInquery ==>
                res == Pass && sendBuffer == old(sendBuffer) && typedMoves == old(typedMoves)
    {
      transcript := transcript + [n];
      res := Pass;
      if n == RecvPlayerSelectionState {
        sendBuffer := sendBuffer + [NamesSent([typedNames.0, typedNames.1])];
      } else if n == RecvMoveInquery {
        if typedMoves == [] {
          return Fail(InputExhausted);
        }
        sendBuffer := sendBuffer + [PositionSent(typedMoves[0])];
        typedMoves := typedMoves[1..];
      }
    }
  }

  predicate MovesFit(moves: seq<Coord>, n: nat) {
    forall m :: m in moves ==> InBounds(m, n)
  }

  /** A game the loop can drive: initialised board, someone to move. */
  predicate Drivable(s: GameState) {
    Playable(s.grid, s.size) && TurnReady(s) && s.current.Some?
  }

  /** What the loop tells the view once the game is over. */
  function EndNotification(s: GameState): Notification
    requires s.current.Some?
  {
    if s.winner == Draw then RecvGameDraw else RecvGameWon(s.current.value.name)
  }

  /** The notifications, final game, unread input and stopping reason of
      the turn loop of `do_game_loop`. */
  datatype ConsoleRun = ConsoleRun(
    trace: seq<Notification>,
    final: GameState,
    unread: seq<Coord>,
    failure: Option<LoopError>)

  /** The turn loop: while the game runs, announce the turn, ask for a move,
      register it and show the board; then report the outcome. */
  function PlayTurns(s: GameState, moves: seq<Coord>): (run: ConsoleRun)
    requires Drivable(s) && MovesFit(moves, s.size)
    ensures run.final.players == s.players
    decreases |moves|
  {
    if s.winner != InProgress then ConsoleRun([EndNotification(s)], s, moves, None)
    else
      var asked := [RecvPlayerTurnBegin(s.current), RecvMoveInquery];
      if |moves| == 0 then ConsoleRun(asked, s, [], Some(InputExhausted))
      else
        TurnSpec(s, moves[0]);
        match Turn(s, moves[0])
        case Failure(e) => ConsoleRun(asked, s, moves[1..], Some(TurnRejected(e)))
        case Success(t) =>
          var rest := PlayTurns(t, moves[1..]);
          rest.(trace := asked + [RecvGameBoardUpdated(t.grid, None)] + rest.trace)
  }

  /** The index the turn has after `k` accepted moves that did not end
      the game, starting from index `start` with `m` players: each such
      move advances it by one modulo `m`. */
  function TurnAfter(start: nat, k: nat, m: nat): (r: nat)
    requires m > 0
    ensures k > 0 ==> r < m
    decreases k
  {
    if k == 0 then start else TurnAfter((start + 1) % m, k - 1, m)
  }

  /** Advancing one step at a time is adding modulo the number of players. */
  lemma {:induction false} TurnAfterIsSum(start: nat, k: nat, m: nat)
    requires m > 0 && k > 0
    ensures TurnAfter(start, k, m) == (start + k) % m
    decreases k
  {
    if k > 1 {
      TurnAfterIsSum((start + 1) % m, k - 1, m);
      ModAdd(start + 1, k - 1, m);
    }
  }

  /** A run that stops for want of input accepted every typed move
      without the game ending, so each of them advanced the turn once. */
  lemma {:induction false} ExhaustedRunTurn(s: GameState, moves: seq<Coord>)
    requires Drivable(s) && MovesFit(moves, s.size)
    requires s.winner == InProgress && |moves| > 0
    requires PlayTurns(s, moves).failure == Some(InputExhausted)
    ensures var run := PlayTurns(s, moves);
            && run.final.turn == TurnAfter(s.turn, |moves|, |s.players|)
            && run.final.current == Some(s.players[run.final.turn])
    decreases |moves|
  {
    TurnSpec(s, moves[0]);
    var t := Turn(s, moves[0]).value;
    if |moves| > 1 {
      ExhaustedRunTurn(t, moves[1..]);
    }
  }

  /** A run that ends without error ends the game, and its last
      notification is the draw exactly when the game is drawn, otherwise the
      name of the winner. */
  lemma {:induction false} CompletedRunReportsOutcome(s: GameState, moves: seq<Coord>)
    requires Drivable(s) && MovesFit(moves, s.size)
    requires s.winner == InProgress
    requires PlayTurns(s, moves).failure.None?
    ensures var run := PlayTurns(s, moves);
            && run.final.winner != InProgress
            && |run.trace| > 0
            && run.trace[|run.trace| - 1] ==
                 if run.final.winner == Draw then RecvGameDraw
                 else RecvGameWon(run.final.winner.player.name)
    decreases |moves|
  {
    TurnSpec(s, moves[0]);
    var t := Turn(s, moves[0]).value;
    if t.winner == InProgress {
      CompletedRunReportsOutcome(t, moves[1..]);
    }
  }

  /** A run on a finished game only reports the outcome. */
  lemma FinishedRun(s: GameState, moves: seq<Coord>)
    requires Drivable(s) && MovesFit(moves, s.size) && s.winner != InProgress
    ensures PlayTurns(s, moves) == ConsoleRun([EndNotification(s)], s, moves, None)
  {
  }

  /** The loop invariant of `do_game_loop`: nothing is waiting in the
      send buffer, the view was told `t0` and then `done`, and the whole run
      `total` is `done` followed by the run from the current game `s` and
      the moves not yet typed. */
  ghost predicate Replays(s: GameState, moves: seq<Coord>, buffer: seq<Sent>,
                          transcript: seq<Notification>, t0: seq<Notification>,
                          total: ConsoleRun, done: seq<Notification>)
  {
    && Drivable(s) && MovesFit(moves, s.size)
    && buffer == []
    && transcript == t0 + done
    && Splits(total, done, PlayTurns(s, moves))
  }

  /** `total` is the run `rest` with `done` shown before it. */
  predicate Splits(total: ConsoleRun, done: seq<Notification>, rest: ConsoleRun) {
    total == rest.(trace := done + rest.trace)
  }

  /** Notifications shown by a pass move from the remaining run to `done`. */
  lemma SplitShift(total: ConsoleRun, done: seq<Notification>, shown: seq<Notification>,
                   rest: ConsoleRun, rest': ConsoleRun)
    requires Splits(total, done, rest)
    requires rest == rest'.(trace := shown + rest'.trace)
    ensures Splits(total, done + shown, rest')
  {
    assert done + (shown + rest'.trace) == (done + shown) + rest'.trace;
  }

  /** The loop has ended as the run `total` says, after showing `t0`. */
  ghost predicate Concludes(s: GameState, moves: seq<Coord>, buffer: seq<Sent>,
                            transcript: seq<Notification>, t0: seq<Notification>,
                            total: ConsoleRun, res: Outcome<LoopError>)
  {
    && s == total.final
    && transcript == t0 + total.trace
    && moves == total.unread
    && buffer == []
    && res == if total.failure.Some? then Fail(total.failure.value) else Pass
  }

  /** A pass that went through moves its notifications from the remaining
      run to the ones already shown. */
  lemma PassKeepsReplay(s: GameState, moves: seq<Coord>, seen: seq<Notification>,
                        s': GameState, moves': seq<Coord>, seen': seq<Notification>,
                        t0: seq<Notification>, total: ConsoleRun,
                        done: seq<Notification>, shown: seq<Notification>)
    requires Replays(s, moves, [], seen, t0, total, done)
    requires Drivable(s') && MovesFit(moves', s'.size) && seen' == seen + shown
    requires PlayTurns(s, moves) == PlayTurns(s', moves').(trace := shown + PlayTurns(s', moves').trace)
    ensures Replays(s', moves', [], seen', t0, total, done + shown)
  {
    SplitShift(total, done, shown, PlayTurns(s, moves), PlayTurns(s', moves'));
    ConcatAssoc(t0, done, shown);
  }

  /** A pass that stopped ends the run where the remaining run stops. */
  lemma FailConcludes(s: GameState, moves: seq<Coord>, seen: seq<Notification>,
                      s': GameState, moves': seq<Coord>, seen': seq<Notification>,
                      t0: seq<Notification>, total: ConsoleRun,
                      done: seq<Notification>, shown: seq<Notification>, res: Outcome<LoopError>)
    requires Replays(s, moves, [], seen, t0, total, done) && res.Fail?
    requires seen' == seen + shown
    requires var before := PlayTurns(s, moves);
             && s' == before.final && moves' == before.unread
             && shown == before.trace && before.failure == Some(res.error)
    ensures Concludes(s', moves', [], seen', t0, total, res)
  {
    ConcatAssoc(t0, done, shown);
  }

  class ConsoleViewModel {
    const game: TicTacToeGame
    const view: ConsoleView

    constructor (game: TicTacToeGame, view: ConsoleView)
      ensures this.game == game && this.view == view
    {
      this.game := game;
      this.view := view;
    }

    /** One pass of the turn loop: announce the player, ask for a move,
        register it and show the board. `shown` is what the view was told;
        on success the rest of the run continues from the new state. */
    method PlayOneTurn() returns (res: Outcome<LoopError>, ghost shown: seq<Notification>)
      requires Drivable(game.State()) && game.State().winner == InProgress
      requires MovesFit(view.typedMoves, game.board.boardSize)
      requires view.sendBuffer == []
      modifies game, game.board, view`sendBuffer, view`typedMoves, view`transcript
      ensures view.sendBuffer == [] && view.transcript == old(view.transcript) + shown
      ensures var before := PlayTurns(old(game.State()), old(view.typedMoves));
              res.Fail? ==>
                && game.State() == before.final && view.typedMoves == before.unread
                && shown == before.trace && before.failure == Some(res.error)
      ensures res.Pass? ==>
                && Drivable(game.State()) && MovesFit(view.typedMoves, game.board.boardSize)
                && |view.typedMoves| < |old(view.typedMoves)|
                && var after := PlayTurns(game.State(), view.typedMoves);
                   PlayTurns(old(game.State()), old(view.typedMoves)) == after.(trace := shown + after.trace)
    {
      ghost var s, moves := game.State(), view.typedMoves;
      var _ := view.Receive(RecvPlayerTurnBegin(game.currentPlayer));
      var asked := view.Receive(RecvMoveInquery);
      shown := [RecvPlayerTurnBegin(s.current), RecvMoveInquery];
      if asked.Fail? {
        return asked, shown;
      }
      var sent := view.PopFront();
      var outcome := game.RegisterTurn(sent.position);
      if outcome.Fail? {
        return Fail(TurnRejected(outcome.error)), shown;
      }
      var _ := view.Receive(RecvGameBoardUpdated(game.board.columns, None));
      shown := shown + [RecvGameBoardUpdated(game.board.columns, None)];
      res := Pass;
    }

    /** The opening of `do_game_loop`: take `'init'`, ask for the names,
        seat them as X and O and show the empty board. */
    method OpenGame()
      requires view.sendBuffer == [InitToken]
      modifies game, view`sendBuffer, view`typedMoves, view`transcript
      ensures game.State() == WithPlayers(old(game.State()), PlayersFor([view.typedNames.0, view.typedNames.1]))
      ensures TurnReady(game.State()) && game.State().current.Some?
      ensures view.transcript == old(view.transcript) +
                [RecvPlayerSelectionState, RecvGameBoardUpdated(game.State().grid, None)]
      ensures view.sendBuffer == [] && view.typedMoves == old(view.typedMoves)
    {
      var init := view.PopFront();
      assert init == InitToken;
      var _ := view.Receive(RecvPlayerSelectionState);
      var names := view.PopFront();
      var _ := game.SetPlayers(PlayersFor(names.names));
      var _ := view.Receive(RecvGameBoardUpdated(game.board.columns, None));
    }

    /** The loop invariant of `do_game_loop`, see `Replays`. */
    ghost predicate Replaying(t0: seq<Notification>, total: ConsoleRun, done: seq<Notification>)
      reads game, game.board, view
    {
      Replays(game.State(), view.typedMoves, view.sendBuffer, view.transcript, t0, total, done)
    }

    /** The loop has ended as `total` says, see `Concludes`. */
    ghost predicate Concluded(t0: seq<Notification>, total: ConsoleRun, res: Outcome<LoopError>)
      reads game, game.board, view
    {
      Concludes(game.State(), view.typedMoves, view.sendBuffer, view.transcript, t0, total, res)
    }

    /** One pass of the loop, keeping its invariant or ending the run. */
    method LoopPass(ghost t0: seq<Notification>, ghost total: ConsoleRun, ghost done: seq<Notification>)
      returns (res: Outcome<LoopError>, ghost shown: seq<Notification>)
      requires Replaying(t0, total, done) && game.State().winner == InProgress
      modifies game, game.board, view`sendBuffer, view`typedMoves, view`transcript
      ensures res.Fail? ==> Concluded(t0, total, res)
      ensures res.Pass? ==> Replaying(t0, total, done + shown)
      ensures res.Pass? ==> |view.typedMoves| < |old(view.typedMoves)|
    {
      ghost var s, moves, seen := game.State(), view.typedMoves, view.transcript;
      res, shown := PlayOneTurn();
      if res.Pass? {
        PassKeepsReplay(s, moves, seen, game.State(), view.typedMoves, view.transcript, t0, total, done, shown);
      } else {
        FailConcludes(s, moves, seen, game.State(), view.typedMoves, view.transcript, t0, total, done, shown, res);
      }
    }

    /** After the loop: report the outcome, which ends the run. */
    method Conclude(ghost t0: seq<Notification>, ghost total: ConsoleRun, ghost done: seq<Notification>)
      requires Replaying(t0, total, done) && game.State().winner != InProgress
      modifies view`sendBuffer, view`typedMoves, view`transcript
      ensures Concluded(t0, total, Pass)
    {
      FinishedRun(game.State(), view.typedMoves);
      ReportOutcome();
    }

    /** The turn loop of `do_game_loop` and the closing outcome report. */
    method RunTurns() returns (res: Outcome<LoopError>)
      requires Drivable(game.State())
      requires MovesFit(view.typedMoves, game.board.boardSize)
      requires view.sendBuffer == []
      modifies game, game.board, view`sendBuffer, view`typedMoves, view`transcript
      ensures Concluded(old(view.transcript), PlayTurns(old(game.State()), old(view.typedMoves)), res)
    {
      ghost var t0 := view.transcript;
      ghost var total := PlayTurns(game.State(), view.typedMoves);
      ghost var done: seq<Notification> := [];
      while !game.IsGameOver()
        invariant Replaying(t0, total, done)
        decreases |view.typedMoves|
      {
        var step;
        ghost var shown;
        step, shown := LoopPass(t0, total, done);
        if step.Fail? {
          return step;
        }
        done := done + shown;
      }
      Conclude(t0, total, done);
      res := Pass;
    }

    /** After the loop: the draw message if the game is drawn, otherwise
        the winner's name. */
    method ReportOutcome()
      requires game.currentPlayer.Some?
      modifies view`sendBuffer, view`typedMoves, view`transcript
      ensures view.transcript == old(view.transcript) + [EndNotification(game.State())]
      ensures view.sendBuffer == old(view.sendBuffer) && view.typedMoves == old(view.typedMoves)
    {
      if game.winner == Draw {
        var _ := view.Receive(RecvGameDraw);
      } else {
        var _ := view.Receive(RecvGameWon(game.currentPlayer.value.name));
      }
    }

    /** `do_game_loop`: takes `'init'`, asks for the names and seats them
        as X and O, shows the board, runs the turn loop and reports the
        outcome. */
    method DoGameLoop() returns (res: Outcome<LoopError>)
      requires view.sendBuffer == [InitToken]
      requires Playable(game.board.columns, game.board.boardSize)
      requires MovesFit(view.typedMoves, game.board.boardSize)
      modifies game, game.board, view
      ensures var s0 := WithPlayers(old(game.State()), PlayersFor([view.typedNames.0, view.typedNames.1]));
              var run := PlayTurns(s0, old(view.typedMoves));
              && game.State() == run.final
              && view.transcript == old(view.transcript) +
                   [RecvPlayerSelectionState, RecvGameBoardUpdated(s0.grid, None)] + run.trace
              && view.typedMoves == run.unread
              && view.sendBuffer == []
              && res == if run.failure.Some? then Fail(run.failure.value) else Pass
    {
      OpenGame();
      res := RunTurns();
    }
  }
}
