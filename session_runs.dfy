/** Runs of a whole game window, driven the way its environment drives it:
    the scheduled countdown update is fired until none is left, or the
    server starts one round after another. */
module SessionRuns {
  import opened Rules
  import Countdown
  import opened GameClientFrm

  /** The player moves first in a round over a connection and never moves:
      the countdown is started and every scheduled update is fired. Exactly
      `limit` updates get fired; the turn times out exactly once, against a
      remote opponent with one loss notice and against the bot by ending
      the round; afterwards nothing is scheduled and no countdown runs. */
  method CountdownToTimeout(aiMode: bool, limit: nat)
    returns (fired: nat, sent: seq<Message>, ended: bool, running: bool, scheduled: bool)
    ensures fired == limit
    ensures sent == (if aiMode then [] else [Lose])
    ensures ended == aiMode
    ensures !running && !scheduled
  {
    var client := new GameClient(0, aiMode, true, limit);
    client.StartTimer();
    fired := 0;
    while client.tickPending
      invariant client.Valid()
      invariant client.tickPending ==>
        client.timerRunning && fired + client.timeLeft == limit - 1
        && client.outbox == [] && !client.gameEnded
      invariant !client.tickPending ==>
        client.Clock() == Countdown.Stopped(limit) && fired == limit
        && client.outbox == client.TimeoutNotice() && client.gameEnded == aiMode
      decreases if client.tickPending then client.timeLeft + 1 else 0
    {
      client.Tick();
      fired := fired + 1;
    }
    sent, ended := client.outbox, client.gameEnded;
    running, scheduled := client.timerRunning, client.tickPending;
  }

  /** A window opened with round counter `start`, then `rounds` new rounds
      started by the server. After each, the counter has gone up by one,
      and who moves first and the mark the window draws for the player's
      first move on the fresh board have both swapped. */
  method PlayRounds(start: int, rounds: nat, limit: nat)
    returns (firstMover: seq<bool>, localMark: seq<Mark>)
    ensures |firstMover| == rounds && |localMark| == rounds
    ensures forall r | 0 <= r < rounds ::
      firstMover[r] == LocalMovesFirst(start + r + 1) && localMark[r] == MarkOf(start + r + 1, 1)
    ensures forall r | 0 < r < rounds ::
      firstMover[r] != firstMover[r - 1] && localMark[r] == Other(localMark[r - 1])
    ensures rounds > 0 ==> firstMover[0] != LocalMovesFirst(start)
  {
    var client := new GameClient(start, false, true, limit);
    firstMover, localMark := [], [];
    var r := 0;
    while r < rounds
      invariant 0 <= r <= rounds
      invariant client.Valid()
      invariant client.numberOfMatch == start + r
      invariant |firstMover| == r && |localMark| == r
      invariant forall q | 0 <= q < r ::
        firstMover[q] == LocalMovesFirst(start + q + 1) && localMark[q] == MarkOf(start + q + 1, 1)
    {
      client.NewGame();
      var mark := client.MakeMove(0, 0, 1);
      firstMover := firstMover + [client.myTurn];
      localMark := localMark + [mark.value];
      r := r + 1;
    }
    forall q | 0 < q < rounds
      ensures firstMover[q] != firstMover[q - 1] && localMark[q] == Other(localMark[q - 1])
    {
      NextRoundSwaps(start + q);
    }
    if rounds > 0 {
      NextRoundSwaps(start);
    }
  }
}
