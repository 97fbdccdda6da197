/** The view model of the text interface, textual_interface/view_model.py:
    `GameLogicThread` keeps a `game_state` and reacts to the view's
    commands. One pass of its `run` loop takes at most one message off the
    queue, handles it, then runs the actions of the current state once.
    The thread, the queue polling and the pauses are replaced by a list of
    poll results handed to `Run`. */
module Orchestrator {
  import opened Wrappers
  import opened Board
  import opened Rules
  import opened Game
  import opened View
  import opened Protocol
  import opened Seqs

  /** The values `game_state` takes. */
  datatype Phase =
    | Init
    | GameStart
    | AwaitPlayerNames
    | GameInitialize
    | AwaitPlayerMove
    | PlayerMoveInitialize
    | GameOver

  /** The string constant the source keeps for each state. */
  function PhaseName(p: Phase): string {
    match p
    case Init => "init"
    case GameStart => "game_start"
    case AwaitPlayerNames => "await_player_names"
    case GameInitialize => "game_initialize"
    case AwaitPlayerMove => "await_player_move"
    case PlayerMoveInitialize => "player_move_initialize"
    case GameOver => "game_over"
  }

  /** No two states share a name. */
  lemma PhaseNamesDistinct(a: Phase, b: Phase)
    ensures PhaseName(a) == PhaseName(b) ==> a == b
  {
  }

  /** What stops the thread's loop: a move outside `await_player_move`
      (`ValueError`), an error raised by the game, or a command the
      dispatch table has no entry for (`KeyError`). */
  datatype VmError = OutOfTurnMove | Refused(error: GameError) | Unhandled(cmd: ViewToVmCmd)

  /** The thread's state and its game, as one value. */
  datatype Vm = Vm(phase: Phase, game: GameState)

  /** A message as it sits in the queue. */
  datatype Inbound = Inbound(cmd: ViewToVmCmd, data: MsgData, endCallback: Option<CallbackId>)

  /** The effect of one handler or of `game_loop`: the new state, what the
      view was told, and what was raised, if anything. */
  datatype Step = Step(vm: Vm, shown: seq<Notification>, error: Option<VmError>)

  /** A move is expected in these states and the board then is square and
      the game still running. */
  predicate MovePhase(p: Phase) {
    p == AwaitPlayerMove || p == PlayerMoveInitialize
  }

  /** What holds of every state the loop reaches without error. */
  predicate Ready(vm: Vm) {
    && TurnReady(vm.game)
    && (MovePhase(vm.phase) ==> IsSquare(vm.game.grid, vm.game.size) && vm.game.winner == InProgress)
  }

  /** The data matches the command (names for the names choice, a position
      on the board for a move); the app never sends anything else. */
  predicate Fits(cmd: ViewToVmCmd, data: MsgData, n: nat) {
    && (cmd == PlayerNamesChoice ==> data.Names?)
    && (cmd == PlayerMoveChoice ==> data.Move? && InBounds(data.position, n))
  }

  /** `do_player_names_choice`: the names, zipped with X and O, become the
      players; the view is told the game begins. Without any name
      `set_players` raises after storing the empty list. */
  function NamesChoice(vm: Vm, names: seq<string>): (r: Step)
    ensures r.vm.phase == vm.phase && r.vm.game == WithPlayers(vm.game, PlayersFor(names))
    ensures |names| > 0 <==> r.error.None?
    ensures r.error.None? ==> r.shown == [RecvGameBeginState]
    ensures r.error.Some? ==> r.shown == [] && r.error == Some(Refused(NoPlayers))
  {
    var ps := PlayersFor(names);
    var g := WithPlayers(vm.game, ps);
    if |ps| == 0 then Step(vm.(game := g), [], Some(Refused(NoPlayers)))
    else Step(vm.(game := g), [RecvGameBeginState], None)
  }

  /** `do_player_move_choice`: refused outside `await_player_move`;
      otherwise the move is registered and, when it ends the game, the
      view is told the outcome and the state becomes `game_over`;
      otherwise the state becomes `player_move_initialize`. */
  function MoveChoice(vm: Vm, pos: Coord): (r: Step)
    requires Ready(vm) && InBounds(pos, vm.game.size)
    ensures r.error.Some? ==> r.vm == vm && r.shown == []
    ensures r.error.None? ==> (r.vm.phase == PlayerMoveInitialize || r.vm.phase == GameOver) && |r.shown| <= 1
  {
    if vm.phase != AwaitPlayerMove then Step(vm, [], Some(OutOfTurnMove))
    else
      TurnSpec(vm.game, pos);
      match Turn(vm.game, pos)
      case Failure(e) => Step(vm, [], Some(Refused(e)))
      case Success(t) =>
        if t.winner == InProgress then Step(Vm(PlayerMoveInitialize, t), [], None)
        else if t.winner == Draw then Step(Vm(GameOver, t), [RecvGameDraw], None)
        else Step(Vm(GameOver, t), [RecvGameWon(t.winner.player.name)], None)
  }

  /** The dispatch table of `run`, applied to one message. */
  function Handle(vm: Vm, m: Inbound): (r: Step)
    requires Ready(vm) && Fits(m.cmd, m.data, vm.game.size)
    ensures r.error.Some? ==> m.cmd == PlayerNamesChoice || m.cmd == PlayerMoveChoice || m.cmd == Initialized
    ensures m.cmd == Initialized ==> r.error.Some?
    ensures m.cmd != PlayerNamesChoice && m.cmd != PlayerMoveChoice ==> r.vm.game == vm.game
  {
    match m.cmd
    case PlayerNamesChoice => NamesChoice(vm, m.data.names)
    case GameScreenPushed => Step(vm.(phase := GameInitialize), [], None)
    case PlayerMoveChoice => MoveChoice(vm, m.data.position)
    case GameStarted => Step(vm.(phase := GameStart), [], None)
    case GameReset => Step(vm, [RecvGameBeginState], None)
    case GameRestart => Step(vm.(phase := Init), [], None)
    case Initialized => Step(vm, [], Some(Unhandled(Initialized)))
  }

  /** `game_state_player_move`: show the board, announce the player, wait
      for a move, ask for it. */
  function AskForMove(g: GameState): seq<Notification> {
    [RecvGameBoardUpdated(g.grid, None), RecvPlayerTurnBegin(g.current), RecvMoveInquery]
  }

  /** `game_loop`: the actions listed for the current state. */
  function GameLoop(vm: Vm): (r: Step)
    ensures r.error.None?
  {
    match vm.phase
    case GameStart => Step(vm.(phase := AwaitPlayerNames), [RecvPlayerSelectionState], None)
    case GameInitialize =>
      var g := InitializeState(vm.game);
      Step(Vm(AwaitPlayerMove, g), AskForMove(g), None)
    case PlayerMoveInitialize => Step(vm.(phase := AwaitPlayerMove), AskForMove(vm.game), None)
    case _ => Step(vm, [], None)
  }

  /** The effect of one pass of `run`: the state reached, what the view
      was told, the callbacks called and what stopped the loop. */
  datatype Tick = Tick(vm: Vm, shown: seq<Notification>, fired: seq<CallbackId>, error: Option<VmError>)

  /** The callback `__exit__` calls for a message. */
  function Callbacks(m: Inbound): seq<CallbackId> {
    if m.endCallback.Some? then [m.endCallback.value] else []
  }

  /** One pass: handle the polled message, if any (its callback is called
      even when the handler raises), then, unless it raised, run
      `game_loop` once. */
  function Iterate(vm: Vm, poll: Option<Inbound>): (t: Tick)
    requires Ready(vm) && (poll.Some? ==> Fits(poll.value.cmd, poll.value.data, vm.game.size))
    ensures t.fired == if poll.Some? then Callbacks(poll.value) else []
    ensures poll.None? ==> t.error.None?
  {
    match poll
    case None =>
      var l := GameLoop(vm);
      Tick(l.vm, l.shown, [], None)
    case Some(m) =>
      var h := Handle(vm, m);
      if h.error.Some? then Tick(h.vm, h.shown, Callbacks(m), h.error)
      else
        var l := GameLoop(h.vm);
        Tick(l.vm, h.shown + l.shown, Callbacks(m), None)
  }

  /** Every message fits the board of size n. */
  predicate InboxFits(inbox: seq<Option<Inbound>>, n: nat) {
    forall i :: 0 <= i < |inbox| ==> inbox[i].Some? ==> Fits(inbox[i].value.cmd, inbox[i].value.data, n)
  }

  /** The outcome of `run` over a list of poll results: the state reached,
      the notifications and callbacks in order, how many polls were used,
      and the error that ended the loop, if one did. */
  datatype Session = Session(vm: Vm, shown: seq<Notification>, fired: seq<CallbackId>, used: nat, error: Option<VmError>)

  /** `run` while `live`: passes until one raises or the polls run out. */
  function RunPolls(vm: Vm, inbox: seq<Option<Inbound>>): (s: Session)
    requires Ready(vm) && InboxFits(inbox, vm.game.size)
    ensures s.used <= |inbox|
    ensures s.error.None? ==> s.used == |inbox| && Ready(s.vm) && s.vm.game.size == vm.game.size
    decreases |inbox|
  {
    if inbox == [] then Session(vm, [], [], 0, None)
    else
      var p := Iterate(vm, inbox[0]);
      if p.error.Some? then Session(p.vm, p.shown, p.fired, 1, p.error)
      else
        IterateKeepsReady(vm, inbox[0]);
        var rest := RunPolls(p.vm, inbox[1..]);
        Session(rest.vm, p.shown + rest.shown, p.fired + rest.fired, 1 + rest.used, rest.error)
  }

  /** Handling a message without error keeps the loop's invariant. */
  lemma HandleKeepsReady(vm: Vm, m: Inbound)
    requires Ready(vm) && Fits(m.cmd, m.data, vm.game.size)
    requires Handle(vm, m).error.None?
    ensures Ready(Handle(vm, m).vm) && Handle(vm, m).vm.game.size == vm.game.size
  {
    if m.cmd == PlayerMoveChoice {
      TurnSpec(vm.game, m.data.position);
    }
  }

  /** `game_loop` keeps the loop's invariant: a reset board is square and
      its game runs. */
  lemma GameLoopKeepsReady(vm: Vm)
    requires Ready(vm)
    ensures Ready(GameLoop(vm).vm) && GameLoop(vm).vm.game.size == vm.game.size
  {
  }

  lemma IterateKeepsReady(vm: Vm, poll: Option<Inbound>)
    requires Ready(vm) && (poll.Some? ==> Fits(poll.value.cmd, poll.value.data, vm.game.size))
    requires Iterate(vm, poll).error.None?
    ensures Ready(Iterate(vm, poll).vm)
    ensures Iterate(vm, poll).vm.game.size == vm.game.size
  {
    if poll.Some? {
      HandleKeepsReady(vm, poll.value);
      GameLoopKeepsReady(Handle(vm, poll.value).vm);
    } else {
      GameLoopKeepsReady(vm);
    }
  }

  /** A move outside `await_player_move` raises before `register_turn`
      is reached: nothing changes and nothing is shown. */
  lemma MoveOutOfTurnRaises(vm: Vm, pos: Coord)
    requires Ready(vm) && InBounds(pos, vm.game.size) && vm.phase != AwaitPlayerMove
    ensures MoveChoice(vm, pos) == Step(vm, [], Some(OutOfTurnMove))
  {
  }

  /** A move the game accepts either ends the game, and then exactly one
      notification, the draw when there is no winner and otherwise the
      winner's name, is shown and the state becomes `game_over`; or the
      state becomes `player_move_initialize` and nothing is shown. A move
      in `await_player_move` is never refused as coming after the end. */
  lemma AcceptedMoveOutcome(vm: Vm, pos: Coord)
    requires Ready(vm) && InBounds(pos, vm.game.size) && vm.phase == AwaitPlayerMove
    ensures var r := MoveChoice(vm, pos);
            && r.error != Some(Refused(GameAlreadyOver))
            && (r.error.None? ==>
                  && r.vm.game == Turn(vm.game, pos).value
                  && (r.vm.game.winner != InProgress <==> r.vm.phase == GameOver)
                  && (r.vm.game.winner == InProgress <==> r.vm.phase == PlayerMoveInitialize)
                  && (r.vm.phase == GameOver ==>
                        r.shown == [if r.vm.game.winner == Draw then RecvGameDraw
                                    else RecvGameWon(r.vm.game.winner.player.name)])
                  && (r.vm.phase == PlayerMoveInitialize ==> r.shown == []))
            && (r.error.Some? ==> r.vm == vm && r.shown == [])
  {
    TurnSpec(vm.game, pos);
  }

  /** `game_loop` in `game_start` shows the player selection and waits for
      names; in `game_initialize` it resets the game and asks for a move;
      in `player_move_initialize` it asks for a move without a reset; in
      every other state it does nothing. */
  lemma GameLoopActions(vm: Vm)
    ensures vm.phase == GameStart ==>
              GameLoop(vm) == Step(Vm(AwaitPlayerNames, vm.game), [RecvPlayerSelectionState], None)
    ensures vm.phase == GameInitialize ==>
              && GameLoop(vm).vm == Vm(AwaitPlayerMove, InitializeState(vm.game))
              && GameLoop(vm).shown == AskForMove(InitializeState(vm.game))
    ensures vm.phase == PlayerMoveInitialize ==>
              GameLoop(vm) == Step(Vm(AwaitPlayerMove, vm.game), AskForMove(vm.game), None)
    ensures vm.phase in {Init, AwaitPlayerNames, AwaitPlayerMove, GameOver} ==>
              GameLoop(vm) == Step(vm, [], None)
  {
  }

  /** The commands that only move the state or only show something. */
  lemma CommandEffects(vm: Vm, data: MsgData, cb: Option<CallbackId>)
    requires Ready(vm)
    ensures Handle(vm, Inbound(GameScreenPushed, data, cb)) == Step(Vm(GameInitialize, vm.game), [], None)
    ensures Handle(vm, Inbound(GameStarted, data, cb)) == Step(Vm(GameStart, vm.game), [], None)
    ensures Handle(vm, Inbound(GameRestart, data, cb)) == Step(Vm(Init, vm.game), [], None)
    ensures Handle(vm, Inbound(GameReset, data, cb)) == Step(vm, [RecvGameBeginState], None)
    ensures Handle(vm, Inbound(Initialized, data, cb)).error == Some(Unhandled(Initialized))
  {
  }

  /** One session followed by another. */
  function Then(a: Session, b: Session): Session {
    Session(b.vm, a.shown + b.shown, a.fired + b.fired, a.used + b.used, b.error)
  }

  /** Running over a list is running over a prefix that raised nothing and
      then, from where it left off, over the rest. */
  lemma {:induction false} RunSplit(vm: Vm, inbox: seq<Option<Inbound>>, k: nat)
    requires Ready(vm) && InboxFits(inbox, vm.game.size) && k <= |inbox|
    requires RunPolls(vm, inbox[..k]).error.None?
    ensures var s := RunPolls(vm, inbox[..k]);
            && InboxFits(inbox[k..], vm.game.size)
            && RunPolls(vm, inbox) == Then(s, RunPolls(s.vm, inbox[k..]))
    decreases k
  {
    var s := RunPolls(vm, inbox[..k]);
    if k == 0 {
      assert inbox[..0] == [] && inbox[0..] == inbox;
      var r := RunPolls(vm, inbox);
      ConcatEmpty(r.shown);
      ConcatEmpty(r.fired);
    } else {
      var p0 := Iterate(vm, inbox[0]);
      assert inbox[..k][0] == inbox[0];
      assert inbox[..k][1..] == inbox[1..][..k - 1];
      IterateKeepsReady(vm, inbox[0]);
      RunSplit(p0.vm, inbox[1..], k - 1);
      assert inbox[1..][k - 1..] == inbox[k..];
      var s1 := RunPolls(p0.vm, inbox[1..][..k - 1]);
      var r := RunPolls(s1.vm, inbox[k..]);
      ConcatAssoc(p0.shown, s1.shown, r.shown);
      ConcatAssoc(p0.fired, s1.fired, r.fired);
    }
  }

  /** The loop stops at the first pass that raises: the polls after it are
      never looked at, and the loop reports that pass's error. */
  lemma RunStopsAtFirstError(vm: Vm, inbox: seq<Option<Inbound>>, k: nat)
    requires Ready(vm) && InboxFits(inbox, vm.game.size) && k < |inbox|
    requires RunPolls(vm, inbox[..k]).error.None?
    requires var s := RunPolls(vm, inbox[..k]);
             Iterate(s.vm, inbox[k]).error.Some?
    ensures var s := RunPolls(vm, inbox[..k]);
            var p := Iterate(s.vm, inbox[k]);
            RunPolls(vm, inbox) == Session(p.vm, s.shown + p.shown, s.fired + p.fired, k + 1, p.error)
  {
    RunSplit(vm, inbox, k);
    assert inbox[k..][0] == inbox[k];
  }

  /** What a handler or a pass that raised `e` leaves the loop with. */
  function Raised(e: Option<VmError>): Outcome<VmError> {
    if e.Some? then Fail(e.value) else Pass
  }

  /** A session that raised nothing, extended by one more pass that raised
      nothing either. */
  lemma {:induction false} PollStep(total: Session, acc: Session, vm: Vm, inbox: seq<Option<Inbound>>)
    requires Ready(vm) && InboxFits(inbox, vm.game.size) && inbox != []
    requires total == Then(acc, RunPolls(vm, inbox))
    requires Iterate(vm, inbox[0]).error.None?
    ensures var p := Iterate(vm, inbox[0]);
            var acc' := Session(p.vm, acc.shown + p.shown, acc.fired + p.fired, acc.used + 1, None);
            && Ready(p.vm) && p.vm.game.size == vm.game.size
            && InboxFits(inbox[1..], vm.game.size)
            && total == Then(acc', RunPolls(p.vm, inbox[1..]))
  {
    var p := Iterate(vm, inbox[0]);
    IterateKeepsReady(vm, inbox[0]);
    var rest := RunPolls(p.vm, inbox[1..]);
    ConcatAssoc(acc.shown, p.shown, rest.shown);
    ConcatAssoc(acc.fired, p.fired, rest.fired);
  }

  /** A pass that raised ends the session. */
  lemma PollStops(total: Session, acc: Session, vm: Vm, inbox: seq<Option<Inbound>>)
    requires Ready(vm) && InboxFits(inbox, vm.game.size) && inbox != []
    requires total == Then(acc, RunPolls(vm, inbox))
    requires Iterate(vm, inbox[0]).error.Some?
    ensures var p := Iterate(vm, inbox[0]);
            total == Session(p.vm, acc.shown + p.shown, acc.fired + p.fired, acc.used + 1, p.error)
  {
  }

  /** Posting the messages of `a` and then those of `b` posts those of
      `a + b`. */
  lemma PostedAppend(p0: seq<VmToViewMessage>, a: seq<Notification>, b: seq<Notification>)
    ensures (p0 + EncodeAll(a)) + EncodeAll(b) == p0 + EncodeAll(a + b)
  {
    EncodeAllAppend(a, b);
    ConcatAssoc(p0, EncodeAll(a), EncodeAll(b));
  }

  /** `GameLogicThread`: the game, the view it notifies, the callbacks
      its messages carry, the `live` flag and the `game_state`. */
  class GameLogicThread {
    const game: TicTacToeGame
    const view: TextualView
    const callbacks: CallbackLog
    var live: bool
    var gameState: Phase

    /** The thread's state and its game as one value. */
    function Current(): Vm
      reads this, game, game.board
    {
      Vm(gameState, game.State())
    }

    /** A new thread is live and in the `init` state. */
    constructor (game: TicTacToeGame, v: TextualView, callbacks: CallbackLog)
      ensures this.game == game && view == v && this.callbacks == callbacks
      ensures live && gameState == Init
    {
      this.game := game;
      view := v;
      this.callbacks := callbacks;
      live := true;
      gameState := Init;
    }

    /** The state and the game are those of `r`, and the view was sent
        the messages of `r`'s notifications after `posted0`. */
    ghost predicate Shows(r: Step, posted0: seq<VmToViewMessage>)
      reads this, game, game.board, view
    {
      Current() == r.vm && view.posted == posted0 + EncodeAll(r.shown)
    }

    /** `set_game_state` */
    method SetGameState(state: Phase)
      modifies this`gameState
      ensures gameState == state
    {
      gameState := state;
    }

    /** `do_player_names_choice` */
    method DoPlayerNamesChoice(names: seq<string>) returns (res: Outcome<VmError>)
      modifies game, view
      ensures var r := NamesChoice(old(Current()), names);
              Shows(r, old(view.posted)) && res == Raised(r.error)
    {
      var seated := game.SetPlayers(PlayersFor(names));
      if seated.Fail? {
        return Fail(Refused(seated.error));
      }
      view.RecvGameBeginState();
      res := Pass;
    }

    /** `do_game_screen_pushed` */
    method DoGameScreenPushed()
      modifies this`gameState
      ensures gameState == GameInitialize
    {
      SetGameState(GameInitialize);
    }

    /** `do_player_move_choice` */
    method DoPlayerMoveChoice(position: Coord) returns (res: Outcome<VmError>)
      requires Ready(Current()) && InBounds(position, game.board.boardSize)
      modifies this`gameState, game, game.board, view
      ensures var r := MoveChoice(old(Current()), position);
              Shows(r, old(view.posted)) && res == Raised(r.error)
    {
      if gameState != AwaitPlayerMove {
        return Fail(OutOfTurnMove);
      }
      var turn := game.RegisterTurn(position);
      if turn.Fail? {
        return Fail(Refused(turn.error));
      }
      if game.IsGameOver() {
        if game.winner == Draw {
          view.RecvGameDraw();
        } else {
          view.RecvGameWon(game.winner.player.name);
        }
        SetGameState(GameOver);
      } else {
        SetGameState(PlayerMoveInitialize);
      }
      res := Pass;
    }

    /** `do_game_started` */
    method DoGameStarted()
      modifies this`gameState
      ensures gameState == GameStart
    {
      SetGameState(GameStart);
    }

    /** `do_game_reset` */
    method DoGameReset()
      modifies view
      ensures view.posted == old(view.posted) + [Encode(RecvGameBeginState)]
    {
      view.RecvGameBeginState();
    }

    /** `do_game_restart` */
    method DoGameRestart()
      modifies this`gameState
      ensures gameState == Init
    {
      SetGameState(Init);
    }

    /** The handler the dispatch table of `run` picks for the message; a
        command without an entry raises `KeyError`. */
    method Dispatch(msg: SimpleMessage) returns (res: Outcome<VmError>)
      requires Ready(Current()) && Fits(msg.cmd, msg.data, game.board.boardSize)
      modifies this`gameState, game, game.board, view
      ensures var r := Handle(old(Current()), Inbound(msg.cmd, msg.data, msg.endCallback));
              Shows(r, old(view.posted)) && res == Raised(r.error)
    {
      res := Pass;
      match msg.cmd
      case PlayerNamesChoice => res := DoPlayerNamesChoice(msg.data.names);
      case GameScreenPushed => DoGameScreenPushed();
      case PlayerMoveChoice => res := DoPlayerMoveChoice(msg.data.position);
      case GameStarted => DoGameStarted();
      case GameReset => DoGameReset();
      case GameRestart => DoGameRestart();
      case Initialized => res := Fail(Unhandled(Initialized));
    }

    /** `game_state_game_start` */
    method GameStateGameStart()
      modifies this`gameState, view
      ensures gameState == AwaitPlayerNames
      ensures view.posted == old(view.posted) + [Encode(RecvPlayerSelectionState)]
    {
      view.RecvPlayerSelectionState();
      SetGameState(AwaitPlayerNames);
    }

    /** `game_state_game_initialize` */
    method GameStateGameInitialize()
      modifies game, game.board
      ensures game.State() == InitializeState(old(game.State()))
    {
      game.Initialize();
    }

    /** `game_state_player_move` */
    method GameStatePlayerMove()
      modifies this`gameState, view
      ensures gameState == AwaitPlayerMove
      ensures view.posted == old(view.posted) + EncodeAll(AskForMove(game.State()))
    {
      view.RecvGameBoardUpdated(game.board.columns, None);
      view.RecvPlayerTurnBegin(game.currentPlayer);
      SetGameState(AwaitPlayerMove);
      view.RecvMoveInquery();
    }

    /** `game_state_over` does nothing. */
    method GameStateOver()
    {
    }

    /** `game_loop` */
    method GameLoopOnce()
      modifies this`gameState, game, game.board, view
      ensures Shows(GameLoop(old(Current())), old(view.posted))
    {
      match gameState
      case GameStart => GameStateGameStart();
      case GameInitialize =>
        GameStateGameInitialize();
        GameStatePlayerMove();
      case PlayerMoveInitialize => GameStatePlayerMove();
      case GameOver => GameStateOver();
      case _ =>
    }

    /** The `with` block around one message: the handler runs inside it
        and the message's callback is called on the way out, whatever the
        handler raised. */
    method HandleMessage(m: Inbound) returns (res: Outcome<VmError>)
      requires Ready(Current()) && Fits(m.cmd, m.data, game.board.boardSize)
      modifies this`gameState, game, game.board, view, callbacks
      ensures var h := Handle(old(Current()), m);
              && Shows(h, old(view.posted)) && res == Raised(h.error)
              && callbacks.fired == old(callbacks.fired) + Callbacks(m)
    {
      var envelope := new SimpleMessage(m.cmd, m.data, m.endCallback);
      var msg := envelope.Enter();
      res := Dispatch(msg);
      res := msg.Exit(callbacks, res);
    }

    /** One pass of the `while self.live` loop of `run`: the polled
        message, if any, is handled; a raise ends the pass, otherwise
        `game_loop` runs once. */
    method RunOnce(poll: Option<Inbound>) returns (res: Outcome<VmError>)
      requires Ready(Current())
      requires poll.Some? ==> Fits(poll.value.cmd, poll.value.data, game.board.boardSize)
      modifies this`gameState, game, game.board, view, callbacks
      ensures var t := Iterate(old(Current()), poll);
              && Current() == t.vm
              && view.posted == old(view.posted) + EncodeAll(t.shown)
              && callbacks.fired == old(callbacks.fired) + t.fired
              && res == Raised(t.error)
    {
      if poll.Some? {
        ghost var h := Handle(Current(), poll.value);
        res := HandleMessage(poll.value);
        if res.Fail? {
          return;
        }
        GameLoopOnce();
        PostedAppend(old(view.posted), h.shown, GameLoop(h.vm).shown);
      } else {
        GameLoopOnce();
        res := Pass;
      }
    }

    /** The invariant of `run`'s loop: the whole session `total` is the
        passes made so far, `acc`, followed by a session over the polls
        `rest` still to come; the view and the callbacks show `acc`. */
    ghost predicate Resuming(total: Session, acc: Session, rest: seq<Option<Inbound>>,
                             posted0: seq<VmToViewMessage>, fired0: seq<CallbackId>)
      reads this, game, game.board, view, callbacks
    {
      && Ready(Current()) && InboxFits(rest, game.board.boardSize)
      && total == Then(acc, RunPolls(Current(), rest))
      && view.posted == posted0 + EncodeAll(acc.shown)
      && callbacks.fired == fired0 + acc.fired
    }

    /** The session `total` is over and the thread shows it. */
    ghost predicate Ended(total: Session, posted0: seq<VmToViewMessage>, fired0: seq<CallbackId>)
      reads this, game, game.board, view, callbacks
    {
      && Current() == total.vm
      && view.posted == posted0 + EncodeAll(total.shown)
      && callbacks.fired == fired0 + total.fired
    }

    /** One pass of `run`'s loop, keeping its invariant or ending it. */
    method PollOnce(rest: seq<Option<Inbound>>, ghost total: Session, ghost acc: Session,
                    ghost posted0: seq<VmToViewMessage>, ghost fired0: seq<CallbackId>)
      returns (res: Outcome<VmError>, ghost acc': Session)
      requires rest != [] && Resuming(total, acc, rest, posted0, fired0)
      modifies this`gameState, game, game.board, view, callbacks
      ensures res.Fail? ==> Ended(total, posted0, fired0) && res == Raised(total.error) && total.used == acc.used + 1
      ensures res.Pass? ==> Resuming(total, acc', rest[1..], posted0, fired0) && acc'.used == acc.used + 1
    {
      ghost var vm := Current();
      res := RunOnce(rest[0]);
      ghost var p := Iterate(vm, rest[0]);
      PostedAppend(posted0, acc.shown, p.shown);
      ConcatAssoc(fired0, acc.fired, p.fired);
      acc' := Session(p.vm, acc.shown + p.shown, acc.fired + p.fired, acc.used + 1, p.error);
      if res.Fail? {
        PollStops(total, acc, vm, rest);
      } else {
        PollStep(total, acc, vm, rest);
      }
    }

    /** `run`: passes over the poll results while `live`, until one raises
        (the exception leaves the loop) or the polls run out. A thread that
        is no longer live does nothing. */
    method Run(inbox: seq<Option<Inbound>>) returns (res: Outcome<VmError>, used: nat)
      requires Ready(Current()) && InboxFits(inbox, game.board.boardSize)
      modifies this`gameState, game, game.board, view, callbacks
      ensures !old(live) ==> && used == 0 && res == Pass && Current() == old(Current())
                             && view.posted == old(view.posted) && callbacks.fired == old(callbacks.fired)
      ensures old(live) ==>
                var s := RunPolls(old(Current()), inbox);
                && Current() == s.vm
                && view.posted == old(view.posted) + EncodeAll(s.shown)
                && callbacks.fired == old(callbacks.fired) + s.fired
                && used == s.used && res == Raised(s.error)
    {
      ghost var total := RunPolls(Current(), inbox);
      ghost var acc := Session(Current(), [], [], 0, None);
      ConcatEmpty(total.shown);
      ConcatEmpty(total.fired);
      used := 0;
      res := Pass;
      while live && used < |inbox|
        invariant used <= |inbox| && live == old(live) && acc.used == used
        invariant !old(live) ==> && used == 0 && Current() == old(Current())
                                 && view.posted == old(view.posted) && callbacks.fired == old(callbacks.fired)
        invariant Resuming(total, acc, inbox[used..], old(view.posted), old(callbacks.fired))
        decreases |inbox| - used
      {
        var pass;
        pass, acc := PollOnce(inbox[used..], total, acc, old(view.posted), old(callbacks.fired));
        used := used + 1;
        if pass.Fail? {
          return pass, used;
        }
        assert inbox[used - 1..][1..] == inbox[used..];
      }
      if old(live) {
        assert inbox[used..] == [];
        ConcatEmpty(acc.shown);
        ConcatEmpty(acc.fired);
      }
    }

    /** `pull_the_plug`: the loop stops before its next pass. */
    method PullThePlug()
      modifies this`live
      ensures !live
    {
      live := false;
    }
  }
}
