/**
 * Properties of the profiling timer, proved about the functions of LogTimer.
 */
module TimerFacts {
  import opened Text
  import opened LogSpec
  import opened LogTimer

  /** end and lap on a timer that was never started return -1 and leave it as it is. */
  lemma NotStartedGivesMinusOne(t: Timer, e: State, m: string, now: int, stack: nat)
    requires t.begin == 0
    ensures End(t, e, now, stack).elapsed == -1 && End(t, e, now, stack).timer == t
    ensures Lap(t, e, m, now, stack).elapsed == -1 && Lap(t, e, m, now, stack).timer == t
  {
  }

  /** end on a running timer returns the milliseconds since the start and stops the timer. */
  lemma EndStops(t: Timer, e: State, now: int, stack: nat)
    requires t.begin != 0
    ensures End(t, e, now, stack).elapsed == now - t.begin
    ensures End(t, e, now, stack).timer == t.(begin := 0)
  {
  }

  /** So a second end, whatever the clock says, returns -1. */
  lemma SecondEndFails(t: Timer, e: State, now: int, stack: nat, e2: State, now2: int, stack2: nat)
    ensures End(End(t, e, now, stack).timer, e2, now2, stack2).elapsed == -1
  {
  }

  /** lap on a running timer returns the milliseconds since the start and keeps the timer as it is. */
  lemma LapKeepsRunning(t: Timer, e: State, m: string, now: int, stack: nat)
    requires t.begin != 0
    ensures Lap(t, e, m, now, stack).elapsed == now - t.begin
    ensures Lap(t, e, m, now, stack).timer == t
  {
  }

  /**
   * startTiming: without a tab the title is null and the message is the
   * input; with one, the title is the text before the first tab and the
   * message is the input with every tab replaced by a space.  The start
   * time is recorded unless the start report ran out of stack.
   */
  lemma StartSplitsTitle(t: Timer, e: State, msg: string, now: int, stack: nat)
    ensures var r := StartTiming(t, e, msg, now, stack);
      && ('\t' !in msg ==> r.timer.title == None && r.timer.message == Some(msg))
      && ('\t' in msg ==>
            && r.timer.title.Some?
            && var title := r.timer.title.value;
               |title| < |msg| && title == msg[..|title|] && msg[|title|] == '\t' && '\t' !in title)
      && ('\t' in msg ==>
            && r.timer.message.Some?
            && |r.timer.message.value| == |msg|
            && '\t' !in r.timer.message.value
            && forall i :: 0 <= i < |msg| ==>
                 r.timer.message.value[i] == (if msg[i] == '\t' then ' ' else msg[i]))
      && (!r.out.aborted ==> r.timer.begin == now)
  {
  }

  /** A timer started at time n1 and ended at n2 reports n2 - n1. */
  lemma StartThenEnd(e: State, msg: string, n1: int, stack: nat, e2: State, n2: int, stack2: nat)
    requires n1 != 0 && !StartTimer(e, msg, n1, stack).out.aborted
    ensures End(StartTimer(e, msg, n1, stack).timer, e2, n2, stack2).elapsed == n2 - n1
  {
  }

  /** Laps do not disturb the final end: it still counts from the start. */
  lemma LapThenEnd(t: Timer, e: State, m: string, n1: int, stack: nat, e2: State, n2: int, stack2: nat)
    requires t.begin != 0
    ensures End(Lap(t, e, m, n1, stack).timer, e2, n2, stack2).elapsed == n2 - t.begin
  {
  }

  /**
   * The start time doubles as the "not started" mark, so a timer started
   * when the clock reads 0 cannot be told from one never started.
   */
  lemma StartAtZeroLooksUnstarted(e: State, msg: string, stack: nat, e2: State, n2: int, stack2: nat)
    ensures End(StartTimer(e, msg, 0, stack).timer, e2, n2, stack2).elapsed == -1
  {
  }

  /** With Settings.ProfileLogs off the timer reports nothing and the engine is untouched. */
  lemma SilentWithoutProfileLogs(t: Timer, e: State, msg: string, now: int, stack: nat)
    requires !e.cfg.settings.profileLogs
    ensures StartTiming(t, e, msg, now, stack).out == Outcome(e, false, false)
    ensures End(t, e, now, stack).out == Outcome(e, false, false)
    ensures Lap(t, e, msg, now, stack).out == Outcome(e, false, false)
  {
  }

  /**
   * The elapsed time in the report reads back as whole seconds and
   * milliseconds: no sign for a non-negative difference ...
   */
  lemma ReportedSeconds(dt: int)
    requires dt >= 0
    ensures var r := MillisAsSeconds(dt);
      && r[0] != '-' && r[|r| - 4] == '.'
      && DigitsValue(r[..|r| - 4]) == dt / 1000 && DigitsValue(r[|r| - 3..]) == dt % 1000
  {
    MillisReadBack(dt);
  }

  /** ... and a '-' before the rendering of the magnitude for a negative one. */
  lemma ReportedNegativeSeconds(dt: int)
    requires dt < 0
    ensures var u := Unsigned(-dt);
      && MillisAsSeconds(dt) == "-" + u
      && DigitsValue(u[..|u| - 4]) == -dt / 1000 && DigitsValue(u[|u| - 3..]) == -dt % 1000
  {
    MillisReadBack(-dt);
  }
}
