/**
 * org.sikuli.basics.Debug as a class with state.  One DebugStatics object
 * stands for the class's static fields, and its methods are the static
 * methods, updating those fields step by step as the Java code does; a
 * DebugTimer object is a Debug instance with the profiling fields.  Every
 * method is proved to leave the state that the matching function of
 * LogSpec or LogTimer computes from the old state, so what LogFacts and
 * TimerFacts prove about those functions holds of these methods.
 *
 * What a method returns in Java is returned here too; `aborted` says that
 * the call stack ran out (a StackOverflowError escaped the call) and
 * `stack` is the depth of nested Debug.error calls still available.
 */
module SikuliDebug {
  import opened Text
  import opened LogSpec
  import opened LogTimer

  class DebugStatics {
    var level: int                   // DEBUG_LEVEL
    var verbose: bool
    var quiet: bool
    var console: bool
    var ideStarting: bool            // ideIsStarting
    var settings: Settings           // the Settings flags Debug reads
    var host: Host                   // date, time since start, app data folder
    var logger: Option<Logger>       // privateLogger
    var isJython: bool
    var isJRuby: bool
    var redirectSupported: bool      // loggerRedirectSupported
    var prefixAll: bool              // privateLoggerPrefixAll
    var debugLog: Option<string>     // printout
    var userLog: Option<string>      // printoutuser
    var startLogFile: Option<string> // IDE_START_LOG_FILE
    var names: map<Channel, string>  // privateLogger<Channel>Name
    var startLog: string             // IDE_START_LOG
    var files: map<string, string>   // what the log files hold
    var screen: string               // what went to System.out
    var delivered: seq<Delivery>     // what the logger object was handed

    function Cfg(): Config
      reads this
    {
      Config(level, verbose, quiet, console, ideStarting, settings, host, logger,
             isJython, isJRuby, redirectSupported, prefixAll, debugLog, userLog, startLogFile)
    }

    /** All static fields as one value. */
    function Snap(): State
      reads this
    {
      State(Cfg(), names, startLog, files, screen, delivered)
    }

    /** Loading the class: initial field values, then the log files named by the two properties. */
    constructor (s: Settings, h: Host,
                 debugProperty: Option<string>, debugOpens: bool,
                 userProperty: Option<string>, userOpens: bool)
      ensures Snap() == ClassInit(s, h, debugProperty, debugOpens, userProperty, userOpens)
    {
      level := 0;
      verbose := false;
      quiet := false;
      console := false;
      ideStarting := false;
      settings := s;
      host := h;
      logger := None;
      isJython := false;
      isJRuby := false;
      redirectSupported := true;
      prefixAll := true;
      debugLog := None;
      userLog := None;
      startLogFile := None;
      names := map[Channel.Info := "", Channel.Action := "", Channel.Error := "", Channel.Debug := "", Channel.User := ""];
      startLog := "";
      files := map[];
      screen := "";
      delivered := [];
      new;
      var aborted := SetLogFileFromProperty(DebugKind, debugProperty, debugOpens, 0);
      aborted := SetLogFileFromProperty(UserKind, userProperty, userOpens, 0);
    }

    /** Other code changing the Settings flags Debug reads. */
    method SetSettings(s: Settings)
      modifies this
      ensures Snap() == old(Snap()).(cfg := old(Snap()).cfg.(settings := s))
    {
      settings := s;
    }

    /** The clock and the environment moving on. */
    method SetHost(h: Host)
      modifies this
      ensures Snap() == old(Snap()).(cfg := old(Snap()).cfg.(host := h))
    {
      host := h;
    }

    // -------------------------------------------------------------------
    // Emission core

    /** doRedirect(type, pre, message). */
    method DoRedirect(ch: Channel, pre: string, msg: string, stack: nat) returns (success: bool, aborted: bool)
      modifies this
      ensures var r := Redirect(old(Snap()), ch, pre, msg, stack);
        Snap() == r.st && success == r.value && aborted == r.aborted
      decreases stack, 0
    {
      success, aborted := false, false;
      if logger.Some? {
        var name := NameOf(names, ch);
        if name != "" {
          var text := RedirectPrefix(ch, prefixAll, pre) + msg;
          if Delivers(Cfg(), name, text) {
            delivered := delivered + [Delivery(name, text)];
            success := true;
            return;
          }
          if stack == 0 {
            aborted := true;
            return;
          }
          aborted := Error(FailureReport(ch, name, FailureDetail(Cfg(), name, text)), stack - 1);
          if aborted {
            return;
          }
          ClearChannel(ch);
        }
      }
    }

    /** The switch at the end of doRedirect: the failed channel's method name becomes "". */
    method ClearChannel(ch: Channel)
      modifies this
      ensures Snap() == old(Snap()).(names := old(Snap()).names[ch := ""])
    {
      names := names[ch := ""];
    }

    /** Debug.error(message). */
    method Error(msg: string, stack: nat) returns (aborted: bool)
      modifies this
      ensures var r := ErrorOp(old(Snap()), msg, stack);
        Snap() == r.st && aborted == r.aborted
      decreases stack, 2
    {
      var done;
      done, aborted := DoRedirect(Channel.Error, "", msg, stack);
      if done || aborted {
        return;
      }
      aborted := Log(-1, ErrorTag, msg, stack);
    }

    /** The private log(level, prefix, message). */
    method Log(lvl: int, tag: string, msg: string, stack: nat) returns (aborted: bool)
      modifies this
      ensures var r := Emit(old(Snap()), lvl, tag, msg, stack);
        Snap() == r.st && aborted == r.aborted
      decreases stack, 1
    {
      aborted := false;
      if quiet || lvl > level {
        return;
      }
      var line := LinePrefix(tag, lvl, settings.logTime, host.dateText);
      var redirected := false;
      if lvl > UserLevel {
        redirected, aborted := DoRedirect(Channel.Debug, line, msg, stack);
      } else if lvl == UserLevel {
        redirected, aborted := DoRedirect(Channel.User, line, msg, stack);
      }
      if redirected || aborted {
        return;
      }
      WriteToSink(lvl, line, msg);
    }

    /** The end of the private log: the line goes to exactly one sink. */
    method WriteToSink(lvl: int, line: string, msg: string)
      modifies this
      ensures Snap() == Fallback(old(Snap()), lvl, line, msg)
    {
      if lvl == UserLevel && userLog.Some? {
        files := Append(files, userLog.value, line + msg + EOL);
      } else if debugLog.Some? {
        files := Append(files, debugLog.value, line + msg + EOL);
      } else if ideStarting {
        var l := StartLine(Cfg(), line, msg);
        startLog := startLog + l + EOL;
        if console {
          screen := screen + l + EOL;
        }
      } else {
        screen := screen + line + msg + EOL;
      }
    }

    // -------------------------------------------------------------------
    // Public emission methods

    /** Debug.log(level, message). */
    method LogAt(lvl: int, msg: string, stack: nat) returns (aborted: bool)
      modifies this
      ensures var r := LogOp(old(Snap()), lvl, msg, stack);
        Snap() == r.st && aborted == r.aborted
    {
      aborted := false;
      if settings.debugLogs || verbose {
        aborted := Log(lvl, DebugTag, msg, stack);
      }
    }

    /** Debug.logx(level, message). */
    method Logx(lvl: int, msg: string, stack: nat) returns (aborted: bool)
      modifies this
      ensures var r := LogSpec.Logx(old(Snap()), lvl, msg, stack);
        Snap() == r.st && aborted == r.aborted
    {
      if lvl == -1 || lvl == -100 {
        aborted := Log(lvl, ErrorTag, msg, stack);
      } else if lvl == -2 {
        aborted := Log(lvl, ActionTag, msg, stack);
      } else if lvl == -3 {
        aborted := Log(lvl, "", msg, stack);
      } else {
        aborted := Log(lvl, DebugTag, msg, stack);
      }
    }

    /** Debug.user(message). */
    method User(msg: string, stack: nat) returns (aborted: bool)
      modifies this
      ensures var r := UserOp(old(Snap()), msg, stack);
        Snap() == r.st && aborted == r.aborted
    {
      aborted := false;
      if settings.userLogs {
        if settings.userLogTime {
          aborted := Log(UserLevel, settings.userLogPrefix + " (" + host.dateText + ")", msg, stack);
        } else {
          aborted := Log(UserLevel, settings.userLogPrefix, msg, stack);
        }
      }
    }

    /** Debug.action(message). */
    method Action(msg: string, stack: nat) returns (aborted: bool)
      modifies this
      ensures var r := ActionOp(old(Snap()), msg, stack);
        Snap() == r.st && aborted == r.aborted
    {
      aborted := false;
      if settings.actionLogs {
        var done;
        done, aborted := DoRedirect(Channel.Action, "", msg, stack);
        if done || aborted {
          return;
        }
        if level >= 3 {
          aborted := Logx(3, msg, stack);
        } else {
          aborted := Log(-1, ActionTag, msg, stack);
        }
      }
    }

    /** Debug.info(message). */
    method Info(msg: string, stack: nat) returns (aborted: bool)
      modifies this
      ensures var r := InfoOp(old(Snap()), msg, stack);
        Snap() == r.st && aborted == r.aborted
    {
      aborted := false;
      if settings.infoLogs {
        if level >= 3 {
          aborted := Logx(3, msg, stack);
        } else {
          var done;
          done, aborted := DoRedirect(Channel.Info, "", msg, stack);
          if done || aborted {
            return;
          }
          aborted := Log(-1, InfoTag, msg, stack);
        }
      }
    }

    /** Debug.print(message): logs the message untagged at -1 and returns it. */
    method Print(msg: string, stack: nat) returns (out: string, aborted: bool)
      modifies this
      ensures var r := PrintOp(old(Snap()), msg, stack);
        Snap() == r.st && aborted == r.aborted && out == msg
    {
      out := msg;
      aborted := Log(-1, "", out, stack);
    }

    /** Debug.profile(message). */
    method Profile(msg: string, stack: nat) returns (aborted: bool)
      modifies this
      ensures var r := ProfileOp(old(Snap()), msg, stack);
        Snap() == r.st && aborted == r.aborted
    {
      aborted := false;
      if settings.profileLogs {
        aborted := Log(-1, ProfileTag, msg, stack);
      }
    }

    /** Debug.enter(message): a profile line on entering a method. */
    method Enter(msg: string, stack: nat) returns (aborted: bool)
      modifies this
      ensures var r := ProfileOp(old(Snap()), "entering: " + msg, stack);
        Snap() == r.st && aborted == r.aborted
    {
      aborted := Profile("entering: " + msg, stack);
    }

    /** Debug.exit(message): a profile line on leaving a method. */
    method Exit(msg: string, stack: nat) returns (aborted: bool)
      modifies this
      ensures var r := ProfileOp(old(Snap()), "exiting: " + msg, stack);
        Snap() == r.st && aborted == r.aborted
    {
      aborted := Profile("exiting: " + msg, stack);
    }

    // -------------------------------------------------------------------
    // Level, verbose, quiet, console and the IDE start-up flag

    /** Debug.is(level). */
    predicate Is(l: int)
      reads this
      ensures Is(l) <==> LogSpec.Is(Snap(), l)
    {
      level >= l
    }

    /** Debug.setDebugLevel(level): Settings.DebugLogs follows whether the level is positive. */
    method SetDebugLevel(l: int)
      modifies this
      ensures Snap() == LogSpec.SetDebugLevel(old(Snap()), l)
    {
      level := l;
      if level > 0 {
        settings := settings.(debugLogs := true);
      } else {
        settings := settings.(debugLogs := false);
      }
    }

    /** Debug.on(level). */
    method On(l: int)
      modifies this
      ensures Snap() == LogSpec.SetDebugLevel(old(Snap()), l)
    {
      SetDebugLevel(l);
    }

    /** Debug.off(). */
    method Off()
      modifies this
      ensures Snap() == LogSpec.SetDebugLevel(old(Snap()), 0)
    {
      SetDebugLevel(0);
    }

    /** Debug.reset(). */
    method Reset()
      modifies this
      ensures Snap() == LogSpec.SetDebugLevel(old(Snap()), 0)
    {
      SetDebugLevel(0);
    }

    /** Debug.setVerbose(). */
    method SetVerbose()
      modifies this
      ensures Snap() == LogSpec.SetVerbose(old(Snap()))
    {
      SetDebugLevel(3);
      verbose := true;
    }

    /** Debug.setQuiet(). */
    method SetQuiet()
      modifies this
      ensures Snap() == old(Snap()).(cfg := old(Snap()).cfg.(quiet := true))
    {
      quiet := true;
    }

    /** Debug.setConsole(). */
    method SetConsole()
      modifies this
      ensures Snap() == old(Snap()).(cfg := old(Snap()).cfg.(console := true))
    {
      console := true;
    }

    /** Debug.isIDEstarting(state...): sets the flag when given one, and returns it. */
    method IsIdeStarting(given: Option<bool>) returns (b: bool)
      modifies this
      ensures Snap() == IdeStarting(old(Snap()), given)
      ensures b == ideStarting
    {
      if given.Some? {
        ideStarting := given.value;
      }
      b := ideStarting;
    }

    // -------------------------------------------------------------------
    // Redirection table

    /** doSetLogger(logger). */
    method DoSetLogger(lg: Logger, stack: nat) returns (ok: bool, aborted: bool)
      modifies this
      ensures var r := LogSpec.DoSetLogger(old(Snap()), lg, stack);
        Snap() == r.st && ok == r.value && aborted == r.aborted
    {
      NoteLoggerClass(lg);
      if isJRuby {
        ok := false;
        aborted := RefuseJRuby(lg, stack);
      } else {
        logger := Some(lg);
        ok, aborted := true, false;
      }
    }

    /** The first step of doSetLogger: remember whether the logger is a Jython or a JRuby object. */
    method NoteLoggerClass(lg: Logger)
      modifies this
      ensures Snap() == old(Snap()).(cfg := old(Snap()).cfg.(isJython := IsJythonClass(lg), isJRuby := IsJRubyClass(lg)))
    {
      isJython := IsJythonClass(lg);
      isJRuby := IsJRubyClass(lg);
    }

    /** The JRuby branch of doSetLogger. */
    method RefuseJRuby(lg: Logger, stack: nat) returns (aborted: bool)
      modifies this
      ensures var r := LogSpec.RefuseJRuby(old(Snap()), lg, stack);
        Snap() == r.st && aborted == r.aborted && !r.value
    {
      aborted := Logx(3, "Debug: setLogger: given instance's class: " + lg.className, stack);
      if aborted {
        return;
      }
      aborted := Error("setLogger: not yet supported in JRuby script", stack);
      if aborted {
        return;
      }
      redirectSupported := false;
    }

    /** Debug.setLogger(logger). */
    method SetLogger(lg: Logger, stack: nat) returns (aborted: bool)
      modifies this
      ensures var r := LogSpec.SetLogger(old(Snap()), lg, stack);
        Snap() == r.st && aborted == r.aborted
    {
      var ok;
      ok, aborted := DoSetLogger(lg, stack);
      if !ok || aborted {
        return;
      }
      prefixAll := true;
      aborted := Logx(3, "Debug: setLogger " + lg.shown, stack);
    }

    /** Debug.setLoggerNoPrefix(logger). */
    method SetLoggerNoPrefix(lg: Logger, stack: nat) returns (aborted: bool)
      modifies this
      ensures var r := LogSpec.SetLoggerNoPrefix(old(Snap()), lg, stack);
        Snap() == r.st && aborted == r.aborted
    {
      var ok;
      ok, aborted := DoSetLogger(lg, stack);
      if !ok || aborted {
        return;
      }
      prefixAll := false;
    }

    /** doSetLoggerCallback(mName, type). */
    method DoSetLoggerCallback(m: string, ch: Channel, stack: nat) returns (ok: bool, aborted: bool)
      modifies this
      ensures var r := LogSpec.DoSetLoggerCallback(old(Snap()), m, ch, stack);
        Snap() == r.st && ok == r.value && aborted == r.aborted
    {
      ok := false;
      if logger.None? {
        aborted := Error("Debug: setLogger: no logger specified yet", stack);
        return;
      }
      aborted := NoteUnsupported(m, ch, stack);
      if aborted {
        return;
      }
      ok, aborted := BindMethod(m, ch, stack);
    }

    /** The note doSetLoggerCallback logs when redirection is switched off. */
    method NoteUnsupported(m: string, ch: Channel, stack: nat) returns (aborted: bool)
      modifies this
      ensures var r := LogSpec.NoteUnsupported(old(Snap()), m, ch, stack);
        Snap() == r.st && aborted == r.aborted
    {
      aborted := false;
      if !redirectSupported {
        aborted := Logx(3, "Debug: setLogger: " + m + " (" + ChannelText(ch) + ") logger redirect not supported", stack);
      }
    }

    /** The rest of doSetLoggerCallback: the Jython check, the method lookup, the binding. */
    method BindMethod(m: string, ch: Channel, stack: nat) returns (ok: bool, aborted: bool)
      requires logger.Some?
      modifies this
      ensures var r := LogSpec.BindMethod(old(Snap()), m, ch, stack);
        Snap() == r.st && ok == r.value && aborted == r.aborted
    {
      ok := false;
      var lg := logger.value;
      if isJython && !lg.check(m, ch) {
        aborted := Logx(3, "Debug: setLogger: Jython: checkCallback returned: " + lg.shown, stack);
        return;
      }
      if !isJython && !isJRuby && m !in lg.methods {
        aborted := Error("Debug: setLoggerInfo: redirecting to " + m + " failed: \n" + NoSuchMethodText(lg, m), stack);
        return;
      }
      BindName(ch, m);
      ok, aborted := true, false;
    }

    /** The switch at the end of doSetLoggerCallback: the channel's method name becomes m. */
    method BindName(ch: Channel, m: string)
      modifies this
      ensures Snap() == old(Snap()).(names := old(Snap()).names[ch := m])
    {
      names := names[ch := m];
    }

    /** setLoggerUser, setLoggerInfo, setLoggerAction, setLoggerError, setLoggerDebug. */
    method SetLoggerFor(ch: Channel, m: string, stack: nat) returns (ok: bool, aborted: bool)
      modifies this
      ensures var r := LogSpec.SetLoggerFor(old(Snap()), ch, m, stack);
        Snap() == r.st && ok == r.value && aborted == r.aborted
    {
      if m == "" {
        names := names[ch := ""];
        return true, false;
      }
      ok, aborted := DoSetLoggerCallback(m, ch, stack);
    }

    /** Debug.setLoggerAll(mAll): `success &=` each of the five bindings in turn. */
    method SetLoggerAll(m: string, stack: nat) returns (success: bool, aborted: bool)
      modifies this
      ensures var r := LogSpec.SetLoggerAll(old(Snap()), m, stack);
        Snap() == r.st && aborted == r.aborted && (!aborted ==> success == r.value)
    {
      if !redirectSupported {
        aborted := Logx(3, "Debug: setLoggerAll: logger redirect not supported", stack);
        return false, aborted;
      }
      if logger.None? {
        return false, false;
      }
      aborted := Logx(3, "Debug.setLoggerAll: " + m, stack);
      if aborted {
        return false, true;
      }
      ghost var s0 := Snap();
      success := true;
      var i := 0;
      while i < |BindOrder|
        invariant 0 <= i <= |BindOrder|
        invariant !aborted
        invariant var rest := BindEach(Snap(), m, BindOrder[i..], stack);
          BindEach(s0, m, BindOrder, stack) == Outcome(rest.st, success && rest.value, rest.aborted)
        decreases |BindOrder| - i
      {
        var ok;
        ok, aborted := SetLoggerFor(BindOrder[i], m, stack);
        assert BindOrder[i..][0] == BindOrder[i] && BindOrder[i..][1..] == BindOrder[i + 1..];
        if aborted {
          return false, true;
        }
        success := success && ok;
        i := i + 1;
      }
    }

    // -------------------------------------------------------------------
    // Log files and the IDE start-up log

    /** setDebugLogFile(name) and setUserLogFile(name); `opens` says whether the new stream opened. */
    method SetLogFile(k: LogKind, name: string, opens: bool, stack: nat) returns (ok: bool, aborted: bool)
      modifies this
      ensures var r := LogSpec.SetLogFile(old(Snap()), k, name, opens, stack);
        Snap() == r.st && ok == r.value && aborted == r.aborted
    {
      var path := if IsBlank(name) then DefaultName(k) else name;
      DeleteFile(path);
      if !opens {
        screen := screen + SwitchError(k, path) + EOL;
        return false, false;
      }
      OpenStream(k, path);
      aborted := LogAt(3, SwitchNote(k, path), stack);
      ok := true;
    }

    /** File.delete(): the file is gone. */
    method DeleteFile(path: string)
      modifies this
      ensures Snap() == old(Snap()).(files := old(Snap()).files - {path})
    {
      files := files - {path};
    }

    /** A new PrintStream on an empty file replaces printout or printoutuser. */
    method OpenStream(k: LogKind, path: string)
      modifies this
      ensures Snap() == Opened(old(Snap()), k, path)
    {
      match k {
        case DebugKind => debugLog := Some(path);
        case UserKind => userLog := Some(path);
      }
      files := files[path := ""];
    }

    /** setDebugLogFile() and setUserLogFile(): the name comes from a system property. */
    method SetLogFileFromProperty(k: LogKind, property: Option<string>, opens: bool, stack: nat) returns (aborted: bool)
      modifies this
      ensures var r := LogSpec.SetLogFileFromProperty(old(Snap()), k, property, opens, stack);
        Snap() == r.st && aborted == r.aborted
    {
      if property.None? {
        return false;
      }
      var name := if IsBlank(property.value) then DefaultName(k) else property.value;
      var ok;
      ok, aborted := SetLogFile(k, name, opens, stack);
    }

    /** The IDE_START_LOG_FILE assignment and the write of IDE_START_LOG into it. */
    method SaveStartLog(path: string, writes: bool)
      modifies this
      ensures Snap() == LogSpec.SaveStartLog(old(Snap()), path, writes)
    {
      startLogFile := Some(path);
      if writes {
        files := files[path := startLog];
      }
    }

    /** Debug.getIdeStartLog(); `writes` says whether writing the file worked. */
    method GetIdeStartLog(writes: bool, stack: nat) returns (log: string, aborted: bool)
      modifies this
      ensures var r := LogSpec.GetIdeStartLog(old(Snap()), writes, stack);
        Snap() == r.st && aborted == r.aborted && (!aborted ==> log == startLog)
    {
      aborted := false;
      if startLogFile.None? && !ideStarting {
        var path := IdeStartLogPath(host);
        SaveStartLog(path, writes);
        var success := startLog != "";
        if !writes {
          success := false;
          aborted := Error("Debug::IDE_START_LOG_FILE: not saved (" + path + ")", stack);
          if aborted {
            log := startLog;
            return;
          }
        }
        if !success {
          files := files - {path};
          startLogFile := None;
        }
      }
      log := startLog;
    }
  }

  /** A Debug instance: the profiling timer. */
  class DebugTimer {
    var beginTime: int              // _beginTime
    var message: Option<string>     // _message
    var title: Option<string>       // _title

    function T(): Timer
      reads this
    {
      Timer(beginTime, message, title)
    }

    /** new Debug(). */
    constructor ()
      ensures T() == Fresh
    {
      beginTime := 0;
      message := None;
      title := None;
    }

    /** startTiming(message); `now` is the clock reading. */
    method StartTiming(engine: DebugStatics, msg: string, now: int, stack: nat) returns (aborted: bool)
      modifies this, engine
      ensures var r := LogTimer.StartTiming(old(T()), old(engine.Snap()), msg, now, stack);
        T() == r.timer && engine.Snap() == r.out.st && aborted == r.out.aborted
    {
      var pos := IndexOf(msg, '\t');
      if pos < 0 {
        title := None;
        message := Some(msg);
      } else {
        title := Some(msg[..pos]);
        message := Some(ReplaceChar(msg, '\t', ' '));
      }
      aborted := false;
      if message.value != "" {
        aborted := engine.Profile("TStart: " + message.value, stack);
        if aborted {
          return;
        }
      }
      beginTime := now;
    }

    /** Debug.startTimer(message). */
    static method StartTimer(engine: DebugStatics, msg: string, now: int, stack: nat) returns (timer: DebugTimer, aborted: bool)
      modifies engine
      ensures fresh(timer)
      ensures var r := LogTimer.StartTimer(old(engine.Snap()), msg, now, stack);
        timer.T() == r.timer && engine.Snap() == r.out.st && aborted == r.out.aborted
    {
      timer := new DebugTimer();
      aborted := timer.StartTiming(engine, msg, now, stack);
    }

    /** endTiming(message, isLap). */
    method EndTiming(engine: DebugStatics, msg: Option<string>, isLap: bool, now: int, stack: nat) returns (elapsed: int, aborted: bool)
      modifies this, engine
      ensures var r := LogTimer.EndTiming(old(T()), old(engine.Snap()), msg, isLap, now, stack);
        T() == r.timer && engine.Snap() == r.out.st && aborted == r.out.aborted && elapsed == r.elapsed
    {
      if beginTime == 0 {
        aborted := engine.Profile("TError: timer not started (" + Show(msg) + ")", stack);
        return -1, aborted;
      }
      elapsed, aborted := Finish(engine, msg, isLap, now, stack);
    }

    /** endTiming on a running timer: stop it unless this is a lap, then report. */
    method Finish(engine: DebugStatics, msg: Option<string>, isLap: bool, now: int, stack: nat) returns (elapsed: int, aborted: bool)
      requires beginTime != 0
      modifies this, engine
      ensures T() == if isLap then old(T()) else old(T()).(begin := 0)
      ensures elapsed == now - old(beginTime)
      ensures var r := EndReport(old(engine.Snap()), msg, isLap, elapsed, stack);
        engine.Snap() == r.st && aborted == r.aborted
    {
      var dt := now - beginTime;
      if !isLap {
        beginTime := 0;
      }
      aborted := ReportEnd(engine, msg, isLap, dt, stack);
      elapsed := dt;
    }

    /** The report at the end of endTiming. */
    method ReportEnd(engine: DebugStatics, msg: Option<string>, isLap: bool, dt: int, stack: nat) returns (aborted: bool)
      modifies engine
      ensures var r := EndReport(old(engine.Snap()), msg, isLap, dt, stack);
        engine.Snap() == r.st && aborted == r.aborted
    {
      aborted := false;
      if msg != Some("") {
        aborted := engine.Profile((if isLap then "TLap:" else "TEnd") + " (" + MillisAsSeconds(dt) + " sec): " + Show(msg), stack);
      }
    }

    /** end(). */
    method End(engine: DebugStatics, now: int, stack: nat) returns (elapsed: int, aborted: bool)
      modifies this, engine
      ensures var r := LogTimer.End(old(T()), old(engine.Snap()), now, stack);
        T() == r.timer && engine.Snap() == r.out.st && aborted == r.out.aborted && elapsed == r.elapsed
    {
      if title.None? {
        elapsed, aborted := EndTiming(engine, message, false, now, stack);
      } else {
        elapsed, aborted := EndTiming(engine, title, false, now, stack);
      }
    }

    /** lap(message). */
    method Lap(engine: DebugStatics, m: string, now: int, stack: nat) returns (elapsed: int, aborted: bool)
      modifies this, engine
      ensures var r := LogTimer.Lap(old(T()), old(engine.Snap()), m, now, stack);
        T() == r.timer && engine.Snap() == r.out.st && aborted == r.out.aborted && elapsed == r.elapsed
    {
      if title.None? {
        elapsed, aborted := EndTiming(engine, Some("(" + m + ") " + Show(message)), true, now, stack);
      } else {
        elapsed, aborted := EndTiming(engine, Some("(" + m + ") " + Show(title)), true, now, stack);
      }
    }
  }
}
