/** The game-session state of the game window with its widgets left out: the
    board, the round counter, the turn and lifecycle flags, the turn
    countdown and the messages written to the server. */
module GameClientFrm {
  import opened Rules
  import Countdown

  /** Which branch a move handler took. */
  datatype MoveOutcome =
    | NotStarted     // the round has not started (a warning is shown)
    | AlreadyEnded   // the round is over
    | NotYourTurn    // it is the opponent's turn (a warning is shown)
    | OutOfRange     // an index is outside the board: indexing raises IndexError
    | CellTaken      // the clicked cell already holds a mark (a warning is shown)
    | NoMove         // the bot returned no move
    | Placed         // the mark was placed

  /** Which branch a local draw request took. */
  datatype DrawOutcome =
    | WaitForTurn    // it is the opponent's turn (a warning is shown)
    | RoundOver      // the round is over (a warning is shown)
    | Withdrawn      // the player answered no
    | AgreedWithBot  // against the bot, answering yes ends the round in a draw
    | Requested      // a draw was proposed to the opponent

  class GameClient {
    /** The opponent is the built-in bot. */
    const isAiMode: bool
    /** The client holds a server connection (writes are skipped without one). */
    const connected: bool
    /** Seconds a player has for one move. */
    const turnTimeLimit: nat

    /** 0 is empty, 1 the local player's mark, 2 the opponent's. */
    var board: array2<int>
    var numberOfMatch: int
    var myTurn: bool
    var gameStarted: bool
    var gameEnded: bool
    var timeLeft: int
    var timerRunning: bool
    /** A call of the countdown update is scheduled (its handle is held). */
    var tickPending: bool
    /** Bot moves scheduled after a local move and not yet run. */
    var aiMovesPending: nat
    /** Everything written to the server connection, oldest first. */
    var outbox: seq<Message>

    function Clock(): Countdown.Timer
      reads this
    {
      Countdown.Timer(timeLeft, timerRunning, tickPending)
    }

    ghost predicate Valid()
      reads this, board
    {
      && board.Length0 == BoardSize && board.Length1 == BoardSize
      && (forall i, j | 0 <= i < BoardSize && 0 <= j < BoardSize :: 0 <= board[i, j] <= 2)
      && Countdown.Inv(Clock(), turnTimeLimit)
    }

    /** The cell that `board[row][col]` reads. */
    function At(row: int, col: int): int
      reads this, board
      requires Valid() && InRange(row, col)
    {
      board[PyIndex(row).value, PyIndex(col).value]
    }

    /** What a timeout reports to the server: a loss notice when playing a
        remote opponent over a connection, nothing otherwise. */
    function TimeoutNotice(): seq<Message>
    {
      if !isAiMode && connected then [Lose] else []
    }

    /** The board is the same array, `player`'s mark now stands in the cell
        that (row, col) selects, and every other cell is as it was. */
    twostate predicate PlacedAt(row: int, col: int, player: int)
      reads this, board
    {
      && InRange(row, col)
      && board == old(board)
      && board.Length0 == BoardSize && board.Length1 == BoardSize
      && board[PyIndex(row).value, PyIndex(col).value] == player
      && forall i, j | 0 <= i < BoardSize && 0 <= j < BoardSize
           && (i != PyIndex(row).value || j != PyIndex(col).value) :: board[i, j] == old(board[i, j])
    }

    /** The countdown took step `s`; if the step timed out, the timeout
        handler's effects follow (the round ends against the bot, a loss
        notice goes out against a remote opponent). */
    twostate predicate TimerStepped(s: Countdown.Step)
      reads this
    {
      && Clock() == s.timer
      && gameEnded == (old(gameEnded) || (s.expired && isAiMode))
      && outbox == old(outbox) + (if s.expired then TimeoutNotice() else [])
    }

    /** A round was opened: it counts as started, it is over only if the
        player moves first and the countdown started for them timed out at
        once against the bot, and the countdown was started exactly when the
        player moves first. */
    twostate predicate TurnOpened()
      reads this
    {
      var s := Countdown.Start(old(Clock()), turnTimeLimit);
      && gameStarted
      && gameEnded == (myTurn && s.expired && isAiMode)
      && Clock() == (if myTurn then s.timer else old(Clock()))
      && outbox == old(outbox) + (if myTurn && s.expired then TimeoutNotice() else [])
    }

    /** The opponent's placed move was resolved: a win or a full board ends
        the round with the countdown stopped; otherwise it is the player's
        turn and the countdown was started. */
    twostate predicate OpponentMoveResolved(win: bool, full: bool)
      reads this
    {
      && (win || full ==>
            gameEnded && Clock() == Countdown.Stopped(turnTimeLimit)
            && myTurn == old(myTurn) && outbox == old(outbox))
      && (!win && !full ==>
            myTurn && TimerStepped(Countdown.Start(old(Clock()), turnTimeLimit)))
    }

    /** A new window: the round counter comes from the server and decides
        who moves first; the board is empty and no countdown runs. */
    constructor (isStart: int, aiMode: bool, connected: bool, turnTimeLimit: nat)
      ensures Valid() && fresh(board)
      ensures isAiMode == aiMode && this.connected == connected && this.turnTimeLimit == turnTimeLimit
      ensures numberOfMatch == isStart && myTurn == LocalMovesFirst(isStart)
      ensures gameStarted && !gameEnded
      ensures forall i, j | 0 <= i < BoardSize && 0 <= j < BoardSize :: board[i, j] == 0
      ensures Clock() == Countdown.Stopped(turnTimeLimit)
      ensures aiMovesPending == 0 && outbox == []
    {
      isAiMode := aiMode;
      this.connected := connected;
      this.turnTimeLimit := turnTimeLimit;
      numberOfMatch := isStart;
      myTurn := isStart % 2 == 0;
      gameStarted := true;
      gameEnded := false;
      board := new int[BoardSize, BoardSize]((i, j) => 0);
      timeLeft := turnTimeLimit;
      timerRunning := false;
      tickPending := false;
      aiMovesPending := 0;
      outbox := [];
    }

    /** Writes `player`'s value into the cell (row, col) selects and yields
        the mark drawn there; yields None, changing nothing, when indexing
        raises IndexError. */
    method MakeMove(row: int, col: int, player: int) returns (mark: Option<Mark>)
      requires Valid() && (player == 1 || player == 2)
      modifies board
      ensures Valid()
      ensures mark.Some? == InRange(row, col)
      ensures mark.Some? ==> PlacedAt(row, col, player) && mark.value == MarkOf(numberOfMatch, player)
      ensures mark.None? ==> unchanged(board)
    {
      if !InRange(row, col) {
        return None;
      }
      board[PyIndex(row).value, PyIndex(col).value] := player;
      if player == 1 {
        mark := Some(if numberOfMatch % 2 == 0 then X else O);
      } else {
        mark := Some(if numberOfMatch % 2 == 0 then O else X);
      }
    }

    /** Cancels the scheduled update and resets the countdown; the same
        result from any state, so stopping twice is stopping once. */
    method StopTimer()
      requires Valid()
      modifies this`timeLeft, this`timerRunning, this`tickPending
      ensures Valid()
      ensures Clock() == Countdown.Stopped(turnTimeLimit)
    {
      if tickPending {
        tickPending := false;
      }
      timerRunning := false;
      timeLeft := turnTimeLimit;
    }

    /** The update callback: consults the flags, times out or takes one
        second off and schedules itself again. */
    method UpdateTimer()
      requires Valid()
      modifies this`gameEnded, this`timeLeft, this`timerRunning, this`tickPending, this`outbox
      ensures Valid()
      ensures TimerStepped(Countdown.Update(old(Clock()), turnTimeLimit))
    {
      if !timerRunning {
        tickPending := false;
        return;
      }
      if timeLeft <= 0 {
        timerRunning := false;
        tickPending := false;
        OnTimeout();
        return;
      }
      timeLeft := timeLeft - 1;
      tickPending := true;
    }

    /** The environment firing the scheduled update; only possible while
        one is scheduled. */
    method Tick()
      requires Valid() && tickPending
      modifies this`gameEnded, this`timeLeft, this`timerRunning, this`tickPending, this`outbox
      ensures Valid()
      ensures TimerStepped(Countdown.Update(old(Clock()), turnTimeLimit))
    {
      UpdateTimer();
    }

    /** Cancels any scheduled update, then begins a fresh countdown unless
        one is already running. */
    method StartTimer()
      requires Valid()
      modifies this`gameEnded, this`timeLeft, this`timerRunning, this`tickPending, this`outbox
      ensures Valid()
      ensures TimerStepped(Countdown.Start(old(Clock()), turnTimeLimit))
    {
      if tickPending {
        tickPending := false;
      }
      if timerRunning {
        return;
      }
      timeLeft := turnTimeLimit;
      timerRunning := true;
      UpdateTimer();
    }

    /** Time is up: the countdown stops; against the bot the round is lost,
        against a remote opponent a loss notice is sent. */
    method OnTimeout()
      requires Valid()
      modifies this`gameEnded, this`timeLeft, this`timerRunning, this`tickPending, this`outbox
      ensures Valid()
      ensures Clock() == Countdown.Stopped(turnTimeLimit)
      ensures gameEnded == (old(gameEnded) || isAiMode)
      ensures outbox == old(outbox) + TimeoutNotice()
    {
      StopTimer();
      if isAiMode {
        OnGameLoss();
      } else if connected {
        outbox := outbox + [Lose];
      }
    }

    method OnGameWin()
      requires Valid()
      modifies this`gameEnded, this`timeLeft, this`timerRunning, this`tickPending, this`outbox
      ensures Valid() && gameEnded && Clock() == Countdown.Stopped(turnTimeLimit)
      ensures outbox == old(outbox) + (if !isAiMode && connected then [Win] else [])
    {
      gameEnded := true;
      StopTimer();
      if !isAiMode && connected {
        outbox := outbox + [Win];
      }
    }

    method OnGameLoss()
      requires Valid()
      modifies this`gameEnded, this`timeLeft, this`timerRunning, this`tickPending
      ensures Valid() && gameEnded && Clock() == Countdown.Stopped(turnTimeLimit)
    {
      gameEnded := true;
      StopTimer();
    }

    method OnGameDraw()
      requires Valid()
      modifies this`gameEnded, this`timeLeft, this`timerRunning, this`tickPending
      ensures Valid() && gameEnded && Clock() == Countdown.Stopped(turnTimeLimit)
    {
      gameEnded := true;
      StopTimer();
    }

    /** The local player clicks a cell. `win` and `full` are what the win
        check and the full-board check report on the board after the mark
        is placed. */
    method OnCellClick(row: int, col: int, win: bool, full: bool) returns (outcome: MoveOutcome)
      requires Valid()
      modifies board, this`myTurn, this`gameEnded, this`timeLeft, this`timerRunning,
        this`tickPending, this`outbox, this`aiMovesPending
      ensures Valid()
      ensures outcome ==
        (if !old(gameStarted) then NotStarted
         else if old(gameEnded) then AlreadyEnded
         else if !old(myTurn) then NotYourTurn
         else if !InRange(row, col) then OutOfRange
         else if old(At(row, col)) != 0 then CellTaken
         else Placed)
      ensures outcome != Placed ==> unchanged(this) && unchanged(board)
      ensures outcome == Placed ==>
        && PlacedAt(row, col, 1)
        && !myTurn
        && gameEnded == (win || full)
        && Clock() == Countdown.Stopped(turnTimeLimit)
        && outbox == old(outbox) +
             (if !isAiMode && connected then [Move(row, col)] + (if win then [Win] else []) else [])
        && aiMovesPending == old(aiMovesPending) + (if isAiMode && !win && !full then 1 else 0)
    {
      if !gameStarted {
        return NotStarted;
      }
      if gameEnded {
        return AlreadyEnded;
      }
      if !myTurn {
        return NotYourTurn;
      }
      if !InRange(row, col) {
        return OutOfRange;
      }
      if At(row, col) != 0 {
        return CellTaken;
      }
      outcome := Placed;
      var mark := MakeMove(row, col, 1);
      StopTimer();
      myTurn := false;
      if !isAiMode && connected {
        outbox := outbox + [Move(row, col)];
      }
      if win {
        OnGameWin();
        return;
      }
      if full {
        OnGameDraw();
        return;
      }
      if isAiMode {
        aiMovesPending := aiMovesPending + 1;
        return;
      }
      myTurn := false;
      StopTimer();
    }

    /** What the three opponent-move handlers do once the mark is placed. */
    method FinishOpponentMove(win: bool, full: bool)
      requires Valid()
      modifies this`myTurn, this`gameEnded, this`timeLeft, this`timerRunning, this`tickPending, this`outbox
      ensures Valid()
      ensures OpponentMoveResolved(win, full)
    {
      if win {
        OnGameLoss();
        return;
      }
      if full {
        OnGameDraw();
        return;
      }
      myTurn := true;
      StartTimer();
    }

    /** The opponent's move arrives from the server. The cell is not checked:
        an occupied cell is overwritten. */
    method ReceiveMove(row: int, col: int, win: bool, full: bool) returns (outcome: MoveOutcome)
      requires Valid()
      modifies board, this`myTurn, this`gameEnded, this`timeLeft, this`timerRunning,
        this`tickPending, this`outbox
      ensures Valid()
      ensures outcome ==
        (if old(gameEnded) then AlreadyEnded
         else if !InRange(row, col) then OutOfRange
         else Placed)
      ensures outcome != Placed ==> unchanged(this) && unchanged(board)
      ensures outcome == Placed ==> PlacedAt(row, col, 2) && OpponentMoveResolved(win, full)
    {
      if gameEnded {
        return AlreadyEnded;
      }
      var mark := MakeMove(row, col, 2);
      if mark.None? {
        return OutOfRange;
      }
      outcome := Placed;
      FinishOpponentMove(win, full);
    }

    /** The opponent's move as the server's move message delivers it; unlike
        ReceiveMove it does not look at whether the round is over. */
    method AddCompetitorMove(row: int, col: int, win: bool, full: bool) returns (outcome: MoveOutcome)
      requires Valid()
      modifies board, this`myTurn, this`gameEnded, this`timeLeft, this`timerRunning,
        this`tickPending, this`outbox
      ensures Valid()
      ensures outcome == (if !InRange(row, col) then OutOfRange else Placed)
      ensures outcome != Placed ==> unchanged(this) && unchanged(board)
      ensures outcome == Placed ==> PlacedAt(row, col, 2) && OpponentMoveResolved(win, full)
    {
      var mark := MakeMove(row, col, 2);
      if mark.None? {
        return OutOfRange;
      }
      outcome := Placed;
      FinishOpponentMove(win, full);
    }

    /** A scheduled bot move runs; `move` is the bot's chosen cell, if any. */
    method AiMakeMove(move: Option<(int, int)>, win: bool, full: bool) returns (outcome: MoveOutcome)
      requires Valid() && aiMovesPending > 0
      modifies board, this`myTurn, this`gameEnded, this`timeLeft, this`timerRunning,
        this`tickPending, this`outbox, this`aiMovesPending
      ensures Valid()
      ensures aiMovesPending == old(aiMovesPending) - 1
      ensures outcome ==
        (if old(gameEnded) then AlreadyEnded
         else if move.None? then NoMove
         else if !InRange(move.value.0, move.value.1) then OutOfRange
         else Placed)
      ensures outcome != Placed ==>
        unchanged(board) && myTurn == old(myTurn) && gameEnded == old(gameEnded)
        && Clock() == old(Clock()) && outbox == old(outbox)
      ensures outcome == Placed ==>
        PlacedAt(move.value.0, move.value.1, 2) && OpponentMoveResolved(win, full)
    {
      aiMovesPending := aiMovesPending - 1;
      if gameEnded {
        return AlreadyEnded;
      }
      if move.None? {
        return NoMove;
      }
      var (row, col) := move.value;
      var mark := MakeMove(row, col, 2);
      if mark.None? {
        return OutOfRange;
      }
      outcome := Placed;
      FinishOpponentMove(win, full);
    }

    /** Marks the round started and, on the player's turn, starts the
        countdown. */
    method StartGame()
      requires Valid()
      modifies this`gameStarted, this`gameEnded, this`timeLeft, this`timerRunning,
        this`tickPending, this`outbox
      ensures Valid()
      ensures TurnOpened()
    {
      gameStarted := true;
      gameEnded := false;
      if myTurn {
        StartTimer();
      }
    }

    /** The next round of the match: the counter goes up by one, which swaps
        who moves first; the board is a fresh empty one. The countdown is not
        stopped first. */
    method NewGame()
      requires Valid()
      modifies this`numberOfMatch, this`gameEnded, this`gameStarted, this`board, this`myTurn,
        this`timeLeft, this`timerRunning, this`tickPending, this`outbox
      ensures Valid() && fresh(board)
      ensures numberOfMatch == old(numberOfMatch) + 1
      ensures myTurn == LocalMovesFirst(numberOfMatch)
      ensures forall i, j | 0 <= i < BoardSize && 0 <= j < BoardSize :: board[i, j] == 0
      ensures TurnOpened()
    {
      numberOfMatch := numberOfMatch + 1;
      gameEnded := false;
      gameStarted := true;
      board := new int[BoardSize, BoardSize]((i, j) => 0);
      myTurn := numberOfMatch % 2 == 0;
      if myTurn {
        StartTimer();
      }
    }

    /** The player asks for a draw; `confirm` is the answer to the yes/no
        question asked (whether to draw with the bot, or whether to send the
        request). */
    method RequestDraw(confirm: bool) returns (outcome: DrawOutcome)
      requires Valid()
      modifies this`gameEnded, this`timeLeft, this`timerRunning, this`tickPending, this`outbox
      ensures Valid()
      ensures outcome ==
        (if !old(myTurn) then WaitForTurn
         else if old(gameEnded) then RoundOver
         else if !confirm then Withdrawn
         else if isAiMode then AgreedWithBot
         else Requested)
      ensures outcome == AgreedWithBot ==> gameEnded && Clock() == Countdown.Stopped(turnTimeLimit)
      ensures outcome != AgreedWithBot ==> gameEnded == old(gameEnded) && Clock() == old(Clock())
      ensures outbox == old(outbox) + (if outcome == Requested && connected then [DrawRequest] else [])
    {
      if !myTurn {
        return WaitForTurn;
      }
      if gameEnded {
        return RoundOver;
      }
      if isAiMode {
        if confirm {
          OnGameDraw();
          return AgreedWithBot;
        }
        return Withdrawn;
      }
      if !confirm {
        return Withdrawn;
      }
      outcome := Requested;
      if connected {
        outbox := outbox + [DrawRequest];
      }
    }

    /** The opponent asks for a draw; `accept` is the player's answer. The
        answer is only sent: the round itself is not ended here. */
    method ReceiveDrawRequest(accept: bool)
      modifies this`outbox
      ensures outbox == old(outbox) +
        (if connected then [if accept then DrawConfirm else DrawRefuse] else [])
    {
      if accept {
        if connected {
          outbox := outbox + [DrawConfirm];
        }
      } else {
        if connected {
          outbox := outbox + [DrawRefuse];
        }
      }
    }

    /** The opponent answered the player's draw request. */
    method ReceiveDrawResponse(accepted: bool)
      requires Valid()
      modifies this`gameEnded, this`timeLeft, this`timerRunning, this`tickPending
      ensures Valid()
      ensures accepted ==> gameEnded && Clock() == Countdown.Stopped(turnTimeLimit)
      ensures !accepted ==> gameEnded == old(gameEnded) && Clock() == old(Clock())
    {
      if accepted {
        OnGameDraw();
      }
    }

    /** The player leaves the room; during a round that is under way
        `confirm` is the answer to whether to leave (leaving counts as a
        loss). Yields whether the player left. */
    method LeaveRoom(confirm: bool) returns (left: bool)
      requires Valid()
      modifies this`timeLeft, this`timerRunning, this`tickPending, this`outbox
      ensures Valid()
      ensures left == (old(gameEnded) || !old(gameStarted) || confirm)
      ensures !left ==> unchanged(this)
      ensures left ==> Clock() == Countdown.Stopped(turnTimeLimit)
      ensures left ==> outbox == old(outbox) + (if !isAiMode && connected then [LeftRoom] else [])
    {
      if !gameEnded && gameStarted {
        if !confirm {
          return false;
        }
      }
      StopTimer();
      if !isAiMode && connected {
        outbox := outbox + [LeftRoom];
      }
      left := true;
    }
  }
}
