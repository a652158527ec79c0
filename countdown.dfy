/** The one-second turn countdown of the game window, as values: the seconds
    left, whether a countdown is running, and whether a call of the update
    callback is scheduled (the window keeps the handle of that scheduled
    call and cancels it through the handle). */
module Countdown {

  datatype Timer = Timer(timeLeft: int, running: bool, pending: bool)

  /** A timer after one step, and whether that step ran out of time and so
      invoked the timeout handler. */
  datatype Step = Step(timer: Timer, expired: bool)

  /** The timer as stopping leaves it: no countdown, no scheduled update,
      the full allowance of seconds. */
  function Stopped(limit: int): Timer
  {
    Timer(limit, false, false)
  }

  /** What every operation keeps: an update is only scheduled while a
      countdown runs, and the seconds left stay between 0 and the limit. */
  predicate Inv(t: Timer, limit: int)
  {
    (t.pending ==> t.running) && 0 <= t.timeLeft <= limit
  }

  /** One run of the update callback. A stopped countdown just forgets its
      handle. A running one that has no second left stops, runs the timeout
      handler (which stops the timer again, restoring the full allowance)
      and schedules nothing. Otherwise one second is taken off and exactly
      one further update is scheduled. */
  function Update(t: Timer, limit: int): Step
  {
    if !t.running then Step(t.(pending := false), false)
    else if t.timeLeft <= 0 then Step(Stopped(limit), true)
    else Step(Timer(t.timeLeft - 1, true, true), false)
  }

  /** Starting the countdown: any scheduled update is cancelled first; a
      countdown that is already running is then left as it is (without its
      update); otherwise a fresh countdown of `limit` seconds begins and the
      update callback runs at once. */
  function Start(t: Timer, limit: int): Step
  {
    var cancelled := t.(pending := false);
    if cancelled.running then Step(cancelled, false)
    else Update(Timer(limit, true, false), limit)
  }

  /** The environment firing the scheduled update up to n times in a row,
      stopping as soon as nothing is scheduled; yields the final timer and
      the number of those updates that ran the timeout handler. */
  function Run(t: Timer, limit: int, n: nat): (Timer, nat)
    decreases n
  {
    if n == 0 || !t.pending then (t, 0)
    else
      var s := Update(t, limit);
      var rest := Run(s.timer, limit, n - 1);
      (rest.0, rest.1 + if s.expired then 1 else 0)
  }

  /** An update that fires on a stopped timer changes nothing and does not
      time out. */
  lemma StrayUpdateOnStoppedIsNoOp(t: Timer, limit: int)
    requires t == Stopped(limit)
    ensures Update(t, limit) == Step(t, false)
  {
  }

  /** The update keeps the invariant; in particular the seconds left never
      become negative. */
  lemma UpdateKeepsInv(t: Timer, limit: int)
    requires Inv(t, limit)
    ensures Inv(Update(t, limit).timer, limit)
    ensures Update(t, limit).timer.timeLeft >= 0
  {
  }

  /** Starting keeps the invariant. */
  lemma StartKeepsInv(t: Timer, limit: int)
    requires Inv(t, limit) && 0 <= limit
    ensures Inv(Start(t, limit).timer, limit)
  {
  }

  /** Starting never leaves an earlier update scheduled: when an update is
      scheduled afterwards, it belongs to the fresh countdown this start
      began. A running countdown is not restarted and does not time out;
      a stopped one restarts from the full allowance. */
  lemma StartSingleFlight(t: Timer, limit: int)
    requires 0 <= limit
    ensures var s := Start(t, limit);
      s.timer.pending ==> !t.running && s.timer == Timer(limit - 1, true, true)
    ensures var s := Start(t, limit);
      t.running ==> !s.expired && !s.timer.pending && s.timer.running && s.timer.timeLeft == t.timeLeft
    ensures var s := Start(t, limit);
      !t.running && 0 < limit ==> !s.expired && s.timer == Timer(limit - 1, true, true)
    ensures var s := Start(t, limit);
      !t.running && limit == 0 ==> s.expired && s.timer == Stopped(limit)
  {
  }

  /** Starting a countdown that is already running cancels its scheduled
      update and starts nothing: the countdown keeps running but no update
      is ever fired again, so it never times out, and further starts leave
      it as it is. */
  lemma RestartStalls(t: Timer, limit: int, n: nat)
    requires t.running
    ensures var s := Start(t, limit);
      s.timer.running && !s.timer.pending && !s.expired
      && Run(s.timer, limit, n) == (s.timer, 0)
      && Start(s.timer, limit) == s
  {
  }

  /** While seconds remain, each fired update takes one second off,
      schedules the next one and does not time out. */
  lemma {:induction false} RunBeforeExpiry(t: Timer, limit: int, n: nat)
    requires t.running && t.pending && 0 <= t.timeLeft
    requires n <= t.timeLeft
    ensures Run(t, limit, n) == (Timer(t.timeLeft - n, true, true), 0)
    decreases n
  {
    if n > 0 {
      var s := Update(t, limit);
      assert s == Step(Timer(t.timeLeft - 1, true, true), false);
      RunBeforeExpiry(s.timer, limit, n - 1);
    }
  }

  /** A running countdown with a scheduled update times out exactly once,
      on the update after its last second, and then nothing is scheduled
      any more, however often the environment is asked to fire again. */
  lemma {:induction false} RunToExpiry(t: Timer, limit: int, n: nat)
    requires t.running && t.pending && 0 <= t.timeLeft
    requires t.timeLeft < n
    ensures Run(t, limit, n) == (Stopped(limit), 1)
    decreases n
  {
    var s := Update(t, limit);
    if t.timeLeft == 0 {
      assert s == Step(Stopped(limit), true);
      assert Run(s.timer, limit, n - 1) == (Stopped(limit), 0);
    } else {
      assert s == Step(Timer(t.timeLeft - 1, true, true), false);
      RunToExpiry(s.timer, limit, n - 1);
    }
  }

  /** From a stopped timer, a start followed by the environment firing the
      scheduled update: for the first limit - 1 fired updates nothing times
      out; from the limit-th on, the countdown has timed out exactly once
      and nothing is scheduled. With a limit of 0 the start itself times
      out. */
  lemma CountdownFromStart(t: Timer, limit: nat, n: nat)
    requires !t.running
    ensures var s := Start(t, limit);
      limit == 0 ==> s.expired && !s.timer.pending
    ensures var s := Start(t, limit);
      0 < limit ==> !s.expired && s.timer.pending
    ensures var s := Start(t, limit);
      0 < limit && n < limit ==> Run(s.timer, limit, n).1 == 0 && Run(s.timer, limit, n).0.pending
    ensures var s := Start(t, limit);
      0 < limit && limit <= n ==> Run(s.timer, limit, n) == (Stopped(limit), 1)
  {
    var s := Start(t, limit);
    if 0 < limit {
      assert s.timer == Timer(limit - 1, true, true);
      if n < limit {
        RunBeforeExpiry(s.timer, limit, n);
      } else {
        RunToExpiry(s.timer, limit, n);
      }
    }
  }
}
