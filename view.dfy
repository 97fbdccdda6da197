/** The view protocol of src/tic_tac_toe/model.py (`TicTacToeGameView`):
    the notifications a view model sends to its view, one constructor per
    `recv_*` method. */
module View {
  import opened Wrappers
  import opened Board
  import opened Rules

  datatype Notification =
    | RecvGameWon(winner: string)
    | RecvGameDraw
    | RecvPlayerSelectionState
    | RecvGameBeginState
    | RecvMoveInquery
    | RecvGameBoardUpdated(board: Grid, coordinate: Option<Coord>)
    | RecvPlayerTurnBegin(player: Option<Player>)
    | RecvShutdown
}
