/** The message contract of textual_interface/communication_interface.py:
    the two command enumerations, the `SimpleMessage` envelope the view
    sends to the view model, and the one-to-one mapping from the view
    protocol's `recv_*` calls to the tagged messages posted to the app. */
module Protocol {
  import opened Wrappers
  import opened Board
  import opened Rules
  import opened View

  /** `VmToViewCmd`: what the view model tells the app. */
  datatype VmToViewCmd =
    | ShowPlayerSelect
    | GameWon
    | GameDraw
    | GameBegin
    | MoveInquery
    | BoardUpdated
    | TurnBegin
    | Shutdown

  /** The string value of each `VmToViewCmd` member. */
  function VmToViewValue(c: VmToViewCmd): string {
    match c
    case ShowPlayerSelect => "recv_player_selection_state"
    case GameWon => "recv_game_won"
    case GameDraw => "recv_game_draw"
    case GameBegin => "recv_game_begin_state"
    case MoveInquery => "recv_move_inquery"
    case BoardUpdated => "recv_game_board_updated"
    case TurnBegin => "recv_player_turn_begin"
    case Shutdown => "recv_shutdown"
  }

  /** `ViewToVmCmd`: what the app asks of the view model. */
  datatype ViewToVmCmd =
    | PlayerNamesChoice
    | PlayerMoveChoice
    | Initialized
    | GameStarted
    | GameScreenPushed
    | GameReset
    | GameRestart

  /** The string value of each `ViewToVmCmd` member. */
  function ViewToVmValue(c: ViewToVmCmd): string {
    match c
    case PlayerNamesChoice => "emit_player_names_set"
    case PlayerMoveChoice => "emit_player_move_choice"
    case Initialized => "emit_initialized"
    case GameStarted => "emit_game_started"
    case GameScreenPushed => "game_screen"
    case GameReset => "emit_reset_game"
    case GameRestart => "emit_game_restart"
  }

  /** No two members of either enumeration share a value, so none of them
      is an alias of another. */
  lemma EnumValuesDistinct(a: VmToViewCmd, b: VmToViewCmd, c: ViewToVmCmd, d: ViewToVmCmd)
    ensures VmToViewValue(a) == VmToViewValue(b) ==> a == b
    ensures ViewToVmValue(c) == ViewToVmValue(d) ==> c == d
  {
  }

  /** The name of the view-protocol method behind each notification. */
  function MethodName(n: Notification): string {
    match n
    case RecvGameWon(_) => "recv_game_won"
    case RecvGameDraw => "recv_game_draw"
    case RecvPlayerSelectionState => "recv_player_selection_state"
    case RecvGameBeginState => "recv_game_begin_state"
    case RecvMoveInquery => "recv_move_inquery"
    case RecvGameBoardUpdated(_, _) => "recv_game_board_updated"
    case RecvPlayerTurnBegin(_) => "recv_player_turn_begin"
    case RecvShutdown => "recv_shutdown"
  }

  /** The `data` of a `VmToViewMessage`: nothing, the winner's name, the
      board with the optional coordinate, or the player whose turn begins. */
  datatype Payload =
    | NoData
    | WinnerName(name: string)
    | BoardAndCoordinate(board: Grid, coordinate: Option<Coord>)
    | TurnPlayer(player: Option<Player>)

  /** `VmToViewMessage(cmd, data=data)`: both fields kept as given. */
  datatype VmToViewMessage = VmToViewMessage(cmd: VmToViewCmd, data: Payload)

  /** The message each `recv_*` method of `TextualTicTacToeView` posts:
      the tag whose value is that method's own name, carrying exactly the
      method's arguments. */
  function Encode(n: Notification): (m: VmToViewMessage)
    ensures VmToViewValue(m.cmd) == MethodName(n)
  {
    match n
    case RecvGameWon(winner) => VmToViewMessage(GameWon, WinnerName(winner))
    case RecvGameDraw => VmToViewMessage(GameDraw, NoData)
    case RecvPlayerSelectionState => VmToViewMessage(ShowPlayerSelect, NoData)
    case RecvGameBeginState => VmToViewMessage(GameBegin, NoData)
    case RecvMoveInquery => VmToViewMessage(MoveInquery, NoData)
    case RecvGameBoardUpdated(board, coordinate) =>
      VmToViewMessage(BoardUpdated, BoardAndCoordinate(board, coordinate))
    case RecvPlayerTurnBegin(player) => VmToViewMessage(TurnBegin, TurnPlayer(player))
    case RecvShutdown => VmToViewMessage(Shutdown, NoData)
  }

  /** What the app's dispatch on `msg.cmd` reads back from a message: the
      notification it stands for, or `None` when the data does not fit
      the tag. */
  function Decode(m: VmToViewMessage): (r: Option<Notification>)
    ensures r.Some? ==> VmToViewValue(m.cmd) == MethodName(r.value)
  {
    match (m.cmd, m.data)
    case (GameWon, WinnerName(winner)) => Some(RecvGameWon(winner))
    case (GameDraw, NoData) => Some(RecvGameDraw)
    case (ShowPlayerSelect, NoData) => Some(RecvPlayerSelectionState)
    case (GameBegin, NoData) => Some(RecvGameBeginState)
    case (MoveInquery, NoData) => Some(RecvMoveInquery)
    case (BoardUpdated, BoardAndCoordinate(board, coordinate)) =>
      Some(RecvGameBoardUpdated(board, coordinate))
    case (TurnBegin, TurnPlayer(player)) => Some(RecvPlayerTurnBegin(player))
    case (Shutdown, NoData) => Some(RecvShutdown)
    case _ => None
  }

  /** The mapping is one-to-one: every posted message reads back as the
      call that posted it, and every message that reads back as a call is
      the one that call posts. */
  lemma EncodeDecode(n: Notification, m: VmToViewMessage)
    ensures Decode(Encode(n)) == Some(n)
    ensures Decode(m) == Some(n) ==> Encode(n) == m
  {
  }

  /** Distinct calls post distinct messages. */
  lemma EncodeInjective(n1: Notification, n2: Notification)
    ensures Encode(n1) == Encode(n2) ==> n1 == n2
  {
    EncodeDecode(n1, Encode(n1));
    EncodeDecode(n2, Encode(n2));
  }

  /** The messages a sequence of `recv_*` calls posts, in call order. */
  function EncodeAll(ns: seq<Notification>): (ms: seq<VmToViewMessage>)
    ensures |ms| == |ns|
    ensures forall i :: 0 <= i < |ns| ==> ms[i] == Encode(ns[i])
  {
    if ns == [] then [] else [Encode(ns[0])] + EncodeAll(ns[1..])
  }

  lemma {:induction false} EncodeAllAppend(a: seq<Notification>, b: seq<Notification>)
    ensures EncodeAll(a + b) == EncodeAll(a) + EncodeAll(b)
  {
    var l, r := EncodeAll(a + b), EncodeAll(a) + EncodeAll(b);
    assert |l| == |r|;
    forall i | 0 <= i < |l|
      ensures l[i] == r[i]
    {
      if i < |a| {
        assert (a + b)[i] == a[i];
      } else {
        assert (a + b)[i] == b[i - |a|];
      }
    }
  }

  /** The data a `SimpleMessage` carries towards the view model: nothing,
      the tuple of typed names, or a chosen (column, row). */
  datatype MsgData = NoPayload | Names(names: seq<string>) | Move(position: Coord)

  /** A completion callback, by identity; what calling it does is outside
      this model, only that it was called and in which order. */
  type CallbackId = nat

  /** The callbacks called so far, in call order. */
  class CallbackLog {
    var fired: seq<CallbackId>

    constructor ()
      ensures fired == []
    {
      fired := [];
    }

    method Call(cb: CallbackId)
      modifies this
      ensures fired == old(fired) + [cb]
    {
      fired := fired + [cb];
    }
  }

  /** `SimpleMessage(cmd, data, end_callback=None)`. The callback can be
      replaced after construction, as the app does before queueing it. */
  class SimpleMessage {
    const cmd: ViewToVmCmd
    const data: MsgData
    var endCallback: Option<CallbackId>

    constructor (cmd: ViewToVmCmd, data: MsgData, endCallback: Option<CallbackId> := None)
      ensures this.cmd == cmd && this.data == data && this.endCallback == endCallback
    {
      this.cmd := cmd;
      this.data := data;
      this.endCallback := endCallback;
    }

    /** `__enter__` hands out the message itself. */
    method Enter() returns (m: SimpleMessage)
      ensures m == this
    {
      m := this;
    }

    /** `__exit__`: calls the callback once if there is one, whether or
        not the block raised, and lets whatever was raised propagate. */
    method Exit<E>(log: CallbackLog, raised: Outcome<E>) returns (r: Outcome<E>)
      modifies log
      ensures r == raised
      ensures log.fired == old(log.fired) + if endCallback.Some? then [endCallback.value] else []
    {
      if endCallback.Some? {
        log.Call(endCallback.value);
      }
      r := raised;
    }
  }

  /** `TextualTicTacToeView`: every `recv_*` posts one message to the
      app, which this model keeps as the list of posted messages. */
  class TextualView {
    var posted: seq<VmToViewMessage>

    constructor ()
      ensures posted == []
    {
      posted := [];
    }

    /** `post_message_to_app(cmd, data)` */
    method PostMessageToApp(cmd: VmToViewCmd, data: Payload)
      modifies this
      ensures posted == old(posted) + [VmToViewMessage(cmd, data)]
    {
      posted := posted + [VmToViewMessage(cmd, data)];
    }

    method RecvGameWon(winner: string)
      modifies this
      ensures posted == old(posted) + [Encode(View.RecvGameWon(winner))]
    {
      PostMessageToApp(GameWon, WinnerName(winner));
    }

    method RecvGameDraw()
      modifies this
      ensures posted == old(posted) + [Encode(View.RecvGameDraw)]
    {
      PostMessageToApp(GameDraw, NoData);
    }

    method RecvPlayerSelectionState()
      modifies this
      ensures posted == old(posted) + [Encode(View.RecvPlayerSelectionState)]
    {
      PostMessageToApp(ShowPlayerSelect, NoData);
    }

    method RecvGameBeginState()
      modifies this
      ensures posted == old(posted) + [Encode(View.RecvGameBeginState)]
    {
      PostMessageToApp(GameBegin, NoData);
    }

    method RecvMoveInquery()
      modifies this
      ensures posted == old(posted) + [Encode(View.RecvMoveInquery)]
    {
      PostMessageToApp(MoveInquery, NoData);
    }

    method RecvGameBoardUpdated(board: Grid, coordinate: Option<Coord>)
      modifies this
      ensures posted == old(posted) + [Encode(View.RecvGameBoardUpdated(board, coordinate))]
    {
      PostMessageToApp(BoardUpdated, BoardAndCoordinate(board, coordinate));
    }

    method RecvPlayerTurnBegin(player: Option<Player>)
      modifies this
      ensures posted == old(posted) + [Encode(View.RecvPlayerTurnBegin(player))]
    {
      PostMessageToApp(TurnBegin, TurnPlayer(player));
    }

    method RecvShutdown()
      modifies this
      ensures posted == old(posted) + [Encode(View.RecvShutdown)]
    {
      PostMessageToApp(Shutdown, NoData);
    }

    /** The `emit_*` methods of this view have empty bodies: none of them
        posts anything. */
    method Emit(cmd: ViewToVmCmd, data: MsgData)
      ensures posted == old(posted)
    {
    }
  }
}
