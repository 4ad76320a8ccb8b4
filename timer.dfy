/**
 * The profiling timer of org.sikuli.basics.Debug as values.  A Debug
 * instance carries three fields: the start time in milliseconds (0 when
 * the timer is not running), the message given at start with tabs turned
 * into spaces, and the title, the part of that message before its first
 * tab.  Its reports go through Debug.profile, so every operation also
 * takes and returns the logging engine's state.  The clock is a
 * parameter: `now` stands for `new Date().getTime()` at the moment of the
 * call.
 */
module LogTimer {
  import opened Text
  import opened LogSpec

  /** The instance fields _beginTime, _message and _title (None for null). */
  datatype Timer = Timer(begin: int, message: Option<string>, title: Option<string>)

  /** A new Debug instance: not started, message and title null. */
  const Fresh: Timer := Timer(0, None, None)

  /** A timer step: the timer afterwards, what the engine did, and the returned milliseconds. */
  datatype Timed = Timed(timer: Timer, out: Outcome, elapsed: int)

  /** A possibly null String as string concatenation renders it. */
  function Show(o: Option<string>): string
  {
    if o.None? then "null" else o.value
  }

  /** The message the timer names itself by: the title if there is one, else the message. */
  function Label(t: Timer): Option<string>
  {
    if t.title.None? then t.message else t.title
  }

  /**
   * startTiming(message): split off the title at the first tab, replace
   * every tab by a space, report "TStart: " + message unless it is empty,
   * and only then record the start time.
   */
  function StartTiming(t: Timer, e: State, msg: string, now: int, stack: nat): (r: Timed)
    ensures r.out.st.cfg == e.cfg
  {
    var pos := IndexOf(msg, '\t');
    var title := if pos < 0 then None else Some(msg[..pos]);
    var message := if pos < 0 then msg else ReplaceChar(msg, '\t', ' ');
    var out := if message != "" then ProfileOp(e, "TStart: " + message, stack) else Outcome(e, false, false);
    if out.aborted then Timed(Timer(t.begin, Some(message), title), out, 0)
    else Timed(Timer(now, Some(message), title), out, 0)
  }

  /** Debug.startTimer(message): a new instance, started. */
  function StartTimer(e: State, msg: string, now: int, stack: nat): (r: Timed)
    ensures r.out.st.cfg == e.cfg
  {
    StartTiming(Fresh, e, msg, now, stack)
  }

  /**
   * endTiming(message, isLap): -1 with a "TError" report when the timer is
   * not running; otherwise the elapsed milliseconds, the timer stopped
   * unless this is a lap, and a "TLap:" or "TEnd" report unless the
   * message is empty.
   */
  function EndTiming(t: Timer, e: State, message: Option<string>, isLap: bool, now: int, stack: nat): (r: Timed)
    ensures r.out.st.cfg == e.cfg
  {
    if t.begin == 0 then
      Timed(t, ProfileOp(e, "TError: timer not started (" + Show(message) + ")", stack), -1)
    else
      var dt := now - t.begin;
      var t1 := if isLap then t else t.(begin := 0);
      Timed(t1, EndReport(e, message, isLap, dt, stack), dt)
  }

  /** The "TLap:" or "TEnd" report of endTiming, left out for an empty message. */
  function EndReport(e: State, message: Option<string>, isLap: bool, dt: int, stack: nat): (r: Outcome)
    ensures r.st.cfg == e.cfg
  {
    if message != Some("")
    then ProfileOp(e, (if isLap then "TLap:" else "TEnd") + " (" + MillisAsSeconds(dt) + " sec): " + Show(message), stack)
    else Outcome(e, false, false)
  }

  /** end(): stop the timer, reporting under its title or message. */
  function End(t: Timer, e: State, now: int, stack: nat): (r: Timed)
    ensures r.out.st.cfg == e.cfg
  {
    EndTiming(t, e, Label(t), false, now, stack)
  }

  /** lap(message): report "(" + message + ") " before the title or message; keep running. */
  function Lap(t: Timer, e: State, m: string, now: int, stack: nat): (r: Timed)
    ensures r.out.st.cfg == e.cfg
  {
    EndTiming(t, e, Some("(" + m + ") " + Show(Label(t))), true, now, stack)
  }
}
