# Caro game window: session state machine

This project models the game-session state that the game window of a
Caro (gomoku, five-in-a-row) client keeps, with the widgets left out.

- The window keeps a 15 x 15 integer board: 0 is empty, 1 is the local player and 2 is the opponent.
- A round counter comes from the server. Its parity decides who moves first and who draws X.
- It keeps the flags `my_turn`, `game_started` and `game_ended`.
- A one-second turn countdown is made of the seconds left, a running flag, and the handle of the scheduled update call.
- There is a record of the messages written to the server.

Modules:

- `Rules` (`rules.dfy`): marks and turn order by round parity, and how a
  Python index `board[row][col]` selects a cell. Indices from -15 to -1
  count from the end; anything else raises IndexError.
- `Countdown` (`countdown.dfy`): the countdown as values. `Update` models one
  run of the update callback. On a timeout it includes the `stop_timer`
  that the timeout handler performs. `Start` models starting the
  countdown. `Run` models the environment firing the scheduled update
  repeatedly. The lemmas prove these properties:
  - the countdown never goes negative;
  - starting never leaves an earlier update scheduled;
  - a started countdown times out exactly once, after exactly the limit
    number of fired updates, and schedules nothing afterwards.
- `GameClientFrm` (`game_client.dfy`): class `GameClient` holds the window's
  fields, with the board as an `array2<int>`. Each handler is a method
  whose postcondition gives the whole new state. The countdown part of that
  state is given as `Countdown.Update` or `Countdown.Start` applied to the
  old countdown (`Clock()`).
- `SessionRuns` (`session_runs.dfy`): two runs of a whole window. In
  `CountdownToTimeout` the player never moves, so the turn times out
  exactly once. In `PlayRounds` one round follows another, and who moves
  first and the local mark alternate.

How the environment is represented:

- A scheduled `after(1000, update_timer)` is the field `tickPending`. Its
  firing is the method `Tick`, which may be called only while it is set.
- A scheduled bot move `after(500, ai_make_move)` counts in
  `aiMovesPending`. `AiMakeMove` may run only while that count is positive.
- The results of the win check, the full-board check and the bot's move
  choice are method parameters (`win`, `full`, `move`). The code that
  computes them is not part of this model.
- Each yes/no dialog answer is a boolean parameter.
- Whether a server connection exists is the constant `connected`. Whether
  the opponent is the bot is `isAiMode`. The window derives that from the
  opponent's nickname being "AI".
- The turn time limit is the constructor parameter `turnTimeLimit`. Its
  value lives in a constants module that is not part of this model.

The countdown start is meant to prevent a double start: its comments speak
of "double-start prevention" and of "Ignoring start request"
(client/view/game_client_frm.py:435, 447). The code defeats that intent, and
the model follows the code:

- Starting the countdown while it is already running cancels the scheduled
  update and then returns (lines 437-448). The countdown stays "running",
  but no update is ever fired again, so the turn never times out. Later
  starts change nothing until it is stopped. `Countdown.RestartStalls`
  states this. One way to reach it is a second remote move arriving on the
  player's turn.

Other behaviour of the code that the model keeps as it is:
- The opponent's move handlers do not check that the cell is empty. An
  opponent move on an occupied cell overwrites the mark there, as
  `PlacedAt(row, col, 2)` says.
- A timeout against a remote opponent only stops the countdown and sends
  a loss notice. It does not set `game_ended`. Against the bot it ends
  the round.
- Answering an incoming draw request only sends the answer. It does not
  end the round.
- `new_game` does not stop a running countdown before starting one.

## Model

| member | source | states |
|---|---|---|
| Rules.PyIndex | client/view/game_client_frm.py:305 | `board[i]` selects a cell exactly for -15 <= i < 15: a non-negative index selects itself and a negative one counts from the end; other indices raise IndexError |
| Rules.MarksByParity | client/view/game_client_frm.py:312-319 | the local player draws X exactly when the round counter is even, i.e. exactly when it moves first; the opponent always draws the other mark, so the two never coincide, and the opponent draws X exactly when it moves first |
| Rules.NextRoundSwaps | client/view/game_client_frm.py:552-561 | one more round swaps who moves first and swaps both players' marks |
| Rules.RoundsAfter | client/view/game_client_frm.py:36-41 | after k further rounds, who moves first and the local mark are the starting round's when k is even and the opposite when k is odd |
| Countdown.StrayUpdateOnStoppedIsNoOp | client/view/game_client_frm.py:478-481 | an update callback that fires on a stopped timer changes nothing and does not time out |
| Countdown.UpdateKeepsInv | client/view/game_client_frm.py:475-499 | the update callback keeps "an update is scheduled only while a countdown runs" and keeps the seconds left between 0 and the limit, so they never go negative |
| Countdown.StartKeepsInv | client/view/game_client_frm.py:434-456 | starting the countdown keeps the same invariant |
| Countdown.StartSingleFlight | client/view/game_client_frm.py:434-456 | after a start, any scheduled update belongs to the fresh countdown it began; a running countdown is not restarted and does not time out; a stopped one restarts at the limit with one second already taken off, or times out at once when the limit is 0 |
| Countdown.RestartStalls | client/view/game_client_frm.py:436-448 | starting a running countdown cancels its scheduled update and starts nothing, after which no update fires, no timeout happens and further starts change nothing |
| Countdown.RunBeforeExpiry | client/view/game_client_frm.py:495-499 | while seconds remain, each fired update takes exactly one second off, schedules exactly one next update and does not time out |
| Countdown.RunToExpiry | client/view/game_client_frm.py:487-493 | a running countdown with t seconds left times out exactly once within t + 1 fired updates, ends stopped at the full allowance and has nothing scheduled, however often firing is attempted afterwards |
| Countdown.CountdownFromStart | client/view/game_client_frm.py:434-499 | from a stopped timer, a start and fewer than limit fired updates give no timeout and a scheduled update; limit or more fired updates give exactly one timeout and nothing scheduled; a limit of 0 times out at the start |
| GameClientFrm.GameClient.constructor | client/view/game_client_frm.py:36-53 | the round counter is the server's value, it is the player's turn exactly when that value is even, the round is started and not ended, every cell is empty, and the countdown is stopped |
| GameClientFrm.GameClient.MakeMove | client/view/game_client_frm.py:297-319 | writes the player's value into exactly the selected cell and no other, and yields the mark of that player for the current round; out-of-range indices change nothing |
| GameClientFrm.GameClient.StopTimer | client/view/game_client_frm.py:458-473 | from any state: not running, no update scheduled, seconds left reset to the limit, so a second stop changes nothing |
| GameClientFrm.GameClient.UpdateTimer | client/view/game_client_frm.py:475-499 | the countdown becomes `Countdown.Update` of the old one; on a timeout the handler's effects follow (round lost against the bot, one loss notice to a remote opponent) |
| GameClientFrm.GameClient.Tick | client/view/game_client_frm.py:498-499 | the scheduled update firing, possible only while one is scheduled, has the same effect as the update callback |
| GameClientFrm.GameClient.StartTimer | client/view/game_client_frm.py:434-456 | the countdown becomes `Countdown.Start` of the old one, with the timeout handler's effects if it expires at once |
| GameClientFrm.GameClient.OnTimeout | client/view/game_client_frm.py:501-511 | stops the countdown; against the bot the round ends, against a remote opponent over a connection exactly one loss notice is sent |
| GameClientFrm.GameClient.OnGameWin | client/view/game_client_frm.py:517-527 | the round ends, the countdown is stopped, and a win notice is sent only to a remote opponent over a connection |
| GameClientFrm.GameClient.OnGameLoss | client/view/game_client_frm.py:529-535 | the round ends and the countdown is stopped |
| GameClientFrm.GameClient.OnGameDraw | client/view/game_client_frm.py:537-543 | the round ends and the countdown is stopped |
| GameClientFrm.GameClient.OnCellClick | client/view/game_client_frm.py:229-295 | a click before the start, after the end, off turn, off the board or on a taken cell changes nothing, and the outcome names the guard that refused it; otherwise exactly the clicked cell becomes 1, it is no longer the player's turn, the countdown is stopped, a move message (then a win notice on a win) is sent only to a remote opponent, the round ends exactly on a win or a full board, and otherwise against the bot one bot move is scheduled |
| GameClientFrm.GameClient.FinishOpponentMove | client/view/game_client_frm.py:371-384 | after an opponent's move, a win or a full board ends the round with the countdown stopped; otherwise it becomes the player's turn and the countdown is started |
| GameClientFrm.GameClient.ReceiveMove | client/view/game_client_frm.py:359-384 | once the round has ended it changes nothing; off-board indices change nothing; otherwise exactly the selected cell becomes 2 (even if occupied) and the move is resolved as above |
| GameClientFrm.GameClient.AddCompetitorMove | client/view/game_client_frm.py:386-420 | like ReceiveMove but without the round-ended check |
| GameClientFrm.GameClient.AiMakeMove | client/view/game_client_frm.py:332-357 | consumes one scheduled bot move; once the round has ended, with no move or off the board it changes nothing else; otherwise exactly the chosen cell becomes 2 and the move is resolved as above |
| GameClientFrm.GameClient.StartGame | client/view/game_client_frm.py:422-432 | the round is started and not ended, unless a zero limit times out at once against the bot on the player's turn; the countdown is started exactly on the player's turn |
| GameClientFrm.GameClient.NewGame | client/view/game_client_frm.py:545-584 | the counter goes up by exactly 1, every cell of a fresh board is empty, the round is started and not ended, unless a zero limit times out at once against the bot on the player's turn; it is the player's turn exactly when the new counter is even, and the countdown is started exactly then |
| GameClientFrm.GameClient.RequestDraw | client/view/game_client_frm.py:586-615 | off turn or after the end it changes nothing; a "no" changes nothing; a "yes" ends the round in a draw against the bot, or sends exactly one draw request to a remote opponent over a connection |
| GameClientFrm.GameClient.ReceiveDrawRequest | client/view/game_client_frm.py:617-635 | over a connection, sends exactly one message, a confirm for "yes" and a refuse for "no"; nothing else changes |
| GameClientFrm.GameClient.ReceiveDrawResponse | client/view/game_client_frm.py:656-667 | an accepted draw ends the round with the countdown stopped; a refused one changes nothing |
| GameClientFrm.GameClient.LeaveRoom | client/view/game_client_frm.py:701-722 | during a round under way, a "no" changes nothing; otherwise the countdown is stopped and exactly one left-room message goes to a remote opponent over a connection |
| SessionRuns.CountdownToTimeout | client/view/game_client_frm.py:434-511 | a started turn on which the player never moves takes exactly limit fired updates to time out, times out exactly once (one loss notice to a remote opponent, or the round ends against the bot), and leaves no countdown running and nothing scheduled |
| SessionRuns.PlayRounds | client/view/game_client_frm.py:545-561 | over successive new rounds, who moves first and the mark the window draws for the player's move, both taken from the window itself, follow the counter's parity and swap every round |

## Left out

- Widgets: building and laying out the window, enabling and disabling cells and the draw button, status and timer labels, colours, `show` and `close`. `show` also starts the countdown on the player's turn; `close` also stops it.
- Informational and warning popups, and the debug and info `log` calls. Neither changes any state. Yes/no dialogs are boolean parameters.
- The socket itself: writes are appended to `outbox`, and a failed write is not modelled.
- Navigation after leaving the room: closing all views and opening the home page.
- The win check, the full-board check and the bot's move choice, which live in a game-logic module that is not part of this model. Their results are parameters. The model does not assume that the bot picks an empty cell.
- The real timing behind `after` and `after_cancel`: the one-second period and the half-second bot delay. Firing is an explicit call.
- Chat: sending, showing and receiving messages. This is free text with no state logic.
- `show_draw_request`, `show_draw_refuse`, `handle_draw_game` and `on_closing`. They are aliases of modelled handlers or popups only.
- The opponent object, room id and opponent address. They are only shown in the window.
- The home-page window and its helpers, which are menu and navigation only.
- The numeric values of the protocol constants: messages are tags.
- What happens to a raised IndexError after the handler: the model records that the handler stops with nothing changed.
