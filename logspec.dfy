/**
 * The process-wide logging engine of org.sikuli.basics.Debug as values:
 * the static fields become one State, and every static operation becomes a
 * function from the old State to an Outcome (the new State, the boolean the
 * Java method returns, and whether the call stack ran out).
 *
 * The emission core is mutually recursive exactly as in the Java class:
 * a failed redirection reports through Debug.error, which redirects again
 * and falls back to the private log, which redirects again.  Nothing bounds
 * that recursion in the source, so every function of the core takes `stack`,
 * the number of further nested Debug.error calls the JVM stack still allows;
 * when it is exhausted the Outcome is `aborted` (a StackOverflowError leaves
 * the engine with the fields as they were at that point).
 */
module LogSpec {
  import opened Text

  /** Debug.CallbackType: the five redirection channels. */
  datatype Channel = Info | Action | Error | Debug | User

  const AllChannels: set<Channel> := {Info, Action, Error, Debug, User}

  /** The channel as `%s` prints the enum constant. */
  function ChannelText(c: Channel): string
  {
    match c
    case Info => "INFO"
    case Action => "ACTION"
    case Error => "ERROR"
    case Debug => "DEBUG"
    case User => "USER"
  }

  /** The level that marks a user message (the "-99 hack"). */
  const UserLevel: int := -99

  const InfoTag: string := "info"
  const ActionTag: string := "log"
  const ErrorTag: string := "error"
  const DebugTag: string := "debug"
  const ProfileTag: string := "profile"

  /** System.lineSeparator(), taken as a single newline. */
  const EOL: string := "\n"

  const DefaultDebugLogName: string := "SikulixLog.txt"
  const DefaultUserLogName: string := "SikulixUserLog.txt"
  const IdeStartLogName: string := "SikulixIDEstartlog.txt"

  /** What invoking a logger method did: returned normally, or threw. */
  datatype Response = Accepted | Threw(reason: string)

  /**
   * The caller's logger object, seen through what the engine asks of it:
   * its class name and printed form, the names of its public methods that
   * take one String (what getMethod finds), the Jython "checkCallback"
   * answer per method name and channel, and how a call of a method with a
   * text turns out (Method.invoke, or Jython's "runLoggerCallback").
   */
  datatype Logger = Logger(
    className: string,
    shown: string,
    methods: set<string>,
    check: (string, Channel) -> bool,
    reply: (string, string) -> Response)

  /** The org.sikuli.basics.Settings flags the engine reads (DebugLogs it also writes). */
  datatype Settings = Settings(
    debugLogs: bool,
    userLogs: bool,
    userLogTime: bool,
    userLogPrefix: string,
    actionLogs: bool,
    infoLogs: bool,
    profileLogs: bool,
    logTime: bool)

  /**
   * Inputs from the host: the date as the short/medium DateFormat renders
   * the current time, Commons.getSinceStart() as "%4.3f" renders it, and
   * the application data folder.
   */
  datatype Host = Host(dateText: string, sinceStart: string, appDataStore: string)

  /** A text handed to the logger method named `target`. */
  datatype Delivery = Delivery(target: string, text: string)

  /**
   * The static fields of Debug that the emission core only reads: levels
   * and flags, the logger and its kind, and which streams are open.
   */
  datatype Config = Config(
    level: int,                    // DEBUG_LEVEL
    verbose: bool,
    quiet: bool,
    console: bool,
    ideStarting: bool,             // ideIsStarting
    settings: Settings,
    host: Host,
    logger: Option<Logger>,        // privateLogger
    isJython: bool,
    isJRuby: bool,
    redirectSupported: bool,       // loggerRedirectSupported
    prefixAll: bool,               // privateLoggerPrefixAll
    debugLog: Option<string>,      // path of printout, None when null
    userLog: Option<string>,       // path of printoutuser, None when null
    startLogFile: Option<string>)  // IDE_START_LOG_FILE

  /**
   * All of Debug's static state: the configuration, the channel bindings,
   * IDE_START_LOG, and the three places output ends up: the contents of
   * files by path, what went to System.out, and what the logger object was
   * handed.
   */
  datatype State = State(
    cfg: Config,
    names: map<Channel, string>,   // privateLogger<Channel>Name
    startLog: string,              // IDE_START_LOG
    files: map<string, string>,
    screen: string,
    delivered: seq<Delivery>)

  /** The result of an operation: new state, the returned boolean, and stack exhaustion. */
  datatype Outcome = Outcome(st: State, value: bool, aborted: bool)

  /** The state of the static fields when the class is loaded. */
  function Initial(settings: Settings, host: Host): (s: State)
  {
    State(Config(0, false, false, false, false, settings, host,
                 None, false, false, true, true, None, None, None),
          map[Info := "", Action := "", Error := "", Debug := "", User := ""],
          "", map[], "", [])
  }

  /** The bound method name of a channel ("" when unbound). */
  function NameOf(names: map<Channel, string>, c: Channel): string
  {
    if c in names then names[c] else ""
  }

  function FileText(files: map<string, string>, path: string): string
  {
    if path in files then files[path] else ""
  }

  /** Appending to a file, as a PrintStream does. */
  function Append(files: map<string, string>, path: string, text: string): map<string, string>
  {
    files[path := FileText(files, path) + text]
  }

  // ---------------------------------------------------------------------
  // Level gate

  /** Debug.is(level). */
  function Is(s: State, l: int): bool
  {
    s.cfg.level >= l
  }

  /** Whether the private log lets a line of this level through. */
  function Emits(s: State, level: int): bool
  {
    !s.cfg.quiet && level <= s.cfg.level
  }

  /** The prefix tag logx chooses for a level. */
  function LogxTag(level: int): string
  {
    if level == -1 || level == -100 then ErrorTag
    else if level == -2 then ActionTag
    else if level == -3 then ""
    else DebugTag
  }

  /** The line prefix of the private log: "[" + tag + stime + "] ", or "" for no tag. */
  function LinePrefix(tag: string, level: int, logTime: bool, dateText: string): string
  {
    var stime := if logTime && level != UserLevel then " (" + dateText + ")" else "";
    if tag == "" then "" else "[" + tag + stime + "] "
  }

  /** The fixed privateLogger<Channel>Prefix values. */
  function FixedPrefix(c: Channel): string
  {
    match c
    case Info => "[" + InfoTag + "] "
    case Action => "[" + ActionTag + "] "
    case Error => "[" + ErrorTag + "] "
    case Debug => ""
    case User => ""
  }

  /** The prefix doRedirect puts before the message. */
  function RedirectPrefix(c: Channel, prefixAll: bool, pre: string): string
  {
    match c
    case Info | Action | Error => if prefixAll then FixedPrefix(c) else ""
    case Debug | User => if prefixAll then (if FixedPrefix(c) == "" then pre else FixedPrefix(c)) else ""
  }

  // ---------------------------------------------------------------------
  // Emission core: doRedirect, error and the private log

  /** Whether handing `text` to the logger method `name` succeeds. */
  predicate Delivers(c: Config, name: string, text: string)
  {
    c.logger.Some? && (c.isJython || !c.isJRuby) && c.logger.value.reply(name, text).Accepted?
  }

  /** The ": " + exception message part of the failure report (Java path only). */
  function FailureDetail(c: Config, name: string, text: string): string
    requires c.logger.Some?
  {
    if c.isJython || c.isJRuby then ""
    else match c.logger.value.reply(name, text)
      case Accepted => ""
      case Threw(reason) => ": " + reason
  }

  /** The message Debug.error receives when a redirection fails. */
  function FailureReport(c: Channel, name: string, detail: string): string
  {
    "calling (" + ChannelText(c) + ") logger." + name + " failed - resetting to default" + detail
  }

  /** doRedirect(type, pre, message) without format arguments. */
  function Redirect(s: State, ch: Channel, pre: string, msg: string, stack: nat): (r: Outcome)
    ensures r.st.cfg == s.cfg
    decreases stack, 0
  {
    var name := NameOf(s.names, ch);
    if s.cfg.logger.None? || name == "" then Outcome(s, false, false)
    else
      var text := RedirectPrefix(ch, s.cfg.prefixAll, pre) + msg;
      if Delivers(s.cfg, name, text) then
        Outcome(s.(delivered := s.delivered + [Delivery(name, text)]), true, false)
      else if stack == 0 then
        Outcome(s, false, true)
      else
        var e := ErrorOp(s, FailureReport(ch, name, FailureDetail(s.cfg, name, text)), stack - 1);
        if e.aborted then Outcome(e.st, false, true)
        else Outcome(e.st.(names := e.st.names[ch := ""]), false, false)
  }

  /** Debug.error(message): redirect to the ERROR channel, else log at -1 with tag "error". */
  function ErrorOp(s: State, msg: string, stack: nat): (r: Outcome)
    ensures r.st.cfg == s.cfg
    decreases stack, 2
  {
    var d := Redirect(s, Error, "", msg, stack);
    if d.aborted || d.value then d
    else Emit(d.st, -1, ErrorTag, msg, stack)
  }

  /** Where an unredirected line goes, in order of preference. */
  datatype Sink = UserFile(path: string) | DebugFile(path: string) | StartBuffer | Console

  function SinkFor(c: Config, level: int): Sink
  {
    if level == UserLevel && c.userLog.Some? then UserFile(c.userLog.value)
    else if c.debugLog.Some? then DebugFile(c.debugLog.value)
    else if c.ideStarting then StartBuffer
    else Console
  }

  /** The text IDE_START_LOG receives for a line. */
  function StartLine(c: Config, line: string, msg: string): string
  {
    (if line == "" then "" else "[SXLOG " + c.host.sinceStart + "] ") + line + msg
  }

  /** Writing an unredirected line to its sink. */
  function Fallback(s: State, level: int, line: string, msg: string): State
  {
    match SinkFor(s.cfg, level)
    case UserFile(p) => s.(files := Append(s.files, p, line + msg + EOL))
    case DebugFile(p) => s.(files := Append(s.files, p, line + msg + EOL))
    case StartBuffer =>
      var l := StartLine(s.cfg, line, msg);
      s.(startLog := s.startLog + l + EOL,
         screen := if s.cfg.console then s.screen + l + EOL else s.screen)
    case Console => s.(screen := s.screen + line + msg + EOL)
  }

  /**
   * The private log(level, prefix, message): gate, prefix, redirection to
   * DEBUG (levels above -99) or USER (-99), else the fallback sink.  The
   * Outcome's value says whether the line was redirected.
   */
  function Emit(s: State, level: int, tag: string, msg: string, stack: nat): (r: Outcome)
    ensures r.st.cfg == s.cfg
    decreases stack, 1
  {
    if !Emits(s, level) then Outcome(s, false, false)
    else
      var line := LinePrefix(tag, level, s.cfg.settings.logTime, s.cfg.host.dateText);
      var d := if level > UserLevel then Redirect(s, Debug, line, msg, stack)
               else if level == UserLevel then Redirect(s, User, line, msg, stack)
               else Outcome(s, false, false);
      if d.aborted || d.value then d
      else Outcome(Fallback(d.st, level, line, msg), false, false)
  }

  // ---------------------------------------------------------------------
  // Public emission entry points (no format arguments)

  /** Debug.log(level, message): only with Settings.DebugLogs or verbose. */
  function LogOp(s: State, level: int, msg: string, stack: nat): (r: Outcome)
    ensures r.st.cfg == s.cfg
  {
    if s.cfg.settings.debugLogs || s.cfg.verbose then Emit(s, level, DebugTag, msg, stack)
    else Outcome(s, false, false)
  }

  /** Debug.logx(level, message). */
  function Logx(s: State, level: int, msg: string, stack: nat): (r: Outcome)
    ensures r.st.cfg == s.cfg
  {
    Emit(s, level, LogxTag(level), msg, stack)
  }

  /** The tag Debug.user passes: Settings.UserLogPrefix, with the date when UserLogTime is set. */
  function UserTag(c: Config): string
  {
    if c.settings.userLogTime then c.settings.userLogPrefix + " (" + c.host.dateText + ")"
    else c.settings.userLogPrefix
  }

  /** Debug.user(message). */
  function UserOp(s: State, msg: string, stack: nat): (r: Outcome)
    ensures r.st.cfg == s.cfg
  {
    if !s.cfg.settings.userLogs then Outcome(s, false, false)
    else Emit(s, UserLevel, UserTag(s.cfg), msg, stack)
  }

  /** Debug.action(message): always tries the ACTION channel first. */
  function ActionOp(s: State, msg: string, stack: nat): (r: Outcome)
    ensures r.st.cfg == s.cfg
  {
    if !s.cfg.settings.actionLogs then Outcome(s, false, false)
    else
      var d := Redirect(s, Action, "", msg, stack);
      if d.aborted || d.value then d
      else if Is(d.st, 3) then Logx(d.st, 3, msg, stack)
      else Emit(d.st, -1, ActionTag, msg, stack)
  }

  /** Debug.info(message): at level 3 and above it skips the INFO channel. */
  function InfoOp(s: State, msg: string, stack: nat): (r: Outcome)
    ensures r.st.cfg == s.cfg
  {
    if !s.cfg.settings.infoLogs then Outcome(s, false, false)
    else if Is(s, 3) then Logx(s, 3, msg, stack)
    else
      var d := Redirect(s, Info, "", msg, stack);
      if d.aborted || d.value then d
      else Emit(d.st, -1, InfoTag, msg, stack)
  }

  /** Debug.print(message): an untagged line at level -1 (the message is also returned). */
  function PrintOp(s: State, msg: string, stack: nat): (r: Outcome)
    ensures r.st.cfg == s.cfg
  {
    Emit(s, -1, "", msg, stack)
  }

  /** Debug.profile(message): only with Settings.ProfileLogs. */
  function ProfileOp(s: State, msg: string, stack: nat): (r: Outcome)
    ensures r.st.cfg == s.cfg
  {
    if s.cfg.settings.profileLogs then Emit(s, -1, ProfileTag, msg, stack)
    else Outcome(s, false, false)
  }

  // ---------------------------------------------------------------------
  // Level, verbose, quiet and the IDE start-up flag

  /** Debug.setDebugLevel(level); also writes Settings.DebugLogs. */
  function SetDebugLevel(s: State, l: int): State
  {
    s.(cfg := s.cfg.(level := l, settings := s.cfg.settings.(debugLogs := l > 0)))
  }

  /** Debug.setVerbose(). */
  function SetVerbose(s: State): State
  {
    var t := SetDebugLevel(s, 3);
    t.(cfg := t.cfg.(verbose := true))
  }

  /** Debug.isIDEstarting(state...): sets the flag when a value is given. */
  function IdeStarting(s: State, given: Option<bool>): State
  {
    if given.Some? then s.(cfg := s.cfg.(ideStarting := given.value)) else s
  }

  // ---------------------------------------------------------------------
  // Redirection table

  /** The Java class-name tests of doSetLogger. */
  predicate IsJythonClass(lg: Logger) { HasInfix(lg.className, "org.python") }
  predicate IsJRubyClass(lg: Logger) { HasInfix(lg.className, "org.jruby") }

  /** doSetLogger(logger): JRuby objects are refused and switch redirection off for good. */
  function DoSetLogger(s: State, lg: Logger, stack: nat): (r: Outcome)
  {
    var s1 := s.(cfg := s.cfg.(isJython := IsJythonClass(lg), isJRuby := IsJRubyClass(lg)));
    if s1.cfg.isJRuby then RefuseJRuby(s1, lg, stack)
    else Outcome(s1.(cfg := s1.cfg.(logger := Some(lg))), true, false)
  }

  /**
   * The JRuby branch of doSetLogger: log the class, report the refusal
   * through Debug.error, then switch redirection off; the value is false.
   */
  function RefuseJRuby(s: State, lg: Logger, stack: nat): (r: Outcome)
  {
    var a := Logx(s, 3, "Debug: setLogger: given instance's class: " + lg.className, stack);
    if a.aborted then Outcome(a.st, false, true)
    else
      var b := ErrorOp(a.st, "setLogger: not yet supported in JRuby script", stack);
      if b.aborted then Outcome(b.st, false, true)
      else Outcome(b.st.(cfg := b.st.cfg.(redirectSupported := false)), false, false)
  }

  /** Debug.setLogger(logger). */
  function SetLogger(s: State, lg: Logger, stack: nat): (r: Outcome)
  {
    var d := DoSetLogger(s, lg, stack);
    if d.aborted || !d.value then d
    else Logx(d.st.(cfg := d.st.cfg.(prefixAll := true)), 3, "Debug: setLogger " + lg.shown, stack)
  }

  /** Debug.setLoggerNoPrefix(logger). */
  function SetLoggerNoPrefix(s: State, lg: Logger, stack: nat): (r: Outcome)
  {
    var d := DoSetLogger(s, lg, stack);
    if d.aborted || !d.value then d
    else Outcome(d.st.(cfg := d.st.cfg.(prefixAll := false)), true, false)
  }

  /** The message of the NoSuchMethodException getMethod throws. */
  function NoSuchMethodText(lg: Logger, m: string): string
  {
    lg.className + "." + m + "(java.lang.String)"
  }

  /** Whether binding channel `ch` to method `m` succeeds with this configuration. */
  predicate BindOk(c: Config, m: string, ch: Channel)
  {
    c.logger.Some? &&
    if c.isJython then c.logger.value.check(m, ch)
    else c.isJRuby || m in c.logger.value.methods
  }

  /** doSetLoggerCallback(mName, type). */
  function DoSetLoggerCallback(s: State, m: string, ch: Channel, stack: nat): (r: Outcome)
    ensures r.st.cfg == s.cfg
  {
    if s.cfg.logger.None? then
      var e := ErrorOp(s, "Debug: setLogger: no logger specified yet", stack);
      Outcome(e.st, false, e.aborted)
    else
      var a := NoteUnsupported(s, m, ch, stack);
      if a.aborted then Outcome(a.st, false, true)
      else BindMethod(a.st, m, ch, stack)
  }

  /** doSetLoggerCallback only notes at level 3 that redirection is off, and goes on. */
  function NoteUnsupported(s: State, m: string, ch: Channel, stack: nat): (r: Outcome)
    ensures r.st.cfg == s.cfg
  {
    if !s.cfg.redirectSupported
    then Logx(s, 3, "Debug: setLogger: " + m + " (" + ChannelText(ch) + ") logger redirect not supported", stack)
    else Outcome(s, false, false)
  }

  /** The rest of doSetLoggerCallback: the Jython check, the method lookup, the binding. */
  function BindMethod(s: State, m: string, ch: Channel, stack: nat): (r: Outcome)
    requires s.cfg.logger.Some?
    ensures r.st.cfg == s.cfg
  {
    var lg := s.cfg.logger.value;
    if s.cfg.isJython && !lg.check(m, ch) then
      var b := Logx(s, 3, "Debug: setLogger: Jython: checkCallback returned: " + lg.shown, stack);
      Outcome(b.st, false, b.aborted)
    else if !s.cfg.isJython && !s.cfg.isJRuby && m !in lg.methods then
      var e := ErrorOp(s, "Debug: setLoggerInfo: redirecting to " + m + " failed: \n" + NoSuchMethodText(lg, m), stack);
      Outcome(e.st, false, e.aborted)
    else Outcome(s.(names := s.names[ch := m]), true, false)
  }

  /** setLoggerUser/Info/Action/Error/Debug(m): an empty name clears the channel. */
  function SetLoggerFor(s: State, ch: Channel, m: string, stack: nat): (r: Outcome)
    ensures r.st.cfg == s.cfg
  {
    if m == "" then Outcome(s.(names := s.names[ch := ""]), true, false)
    else DoSetLoggerCallback(s, m, ch, stack)
  }

  /** Debug.setLoggerAll(m): all five bindings are attempted, in this order, and none is undone. */
  function SetLoggerAll(s: State, m: string, stack: nat): (r: Outcome)
    ensures r.st.cfg == s.cfg
  {
    if !s.cfg.redirectSupported then
      var a := Logx(s, 3, "Debug: setLoggerAll: logger redirect not supported", stack);
      Outcome(a.st, false, a.aborted)
    else if s.cfg.logger.None? then Outcome(s, false, false)
    else
      var a := Logx(s, 3, "Debug.setLoggerAll: " + m, stack);
      if a.aborted then a
      else BindEach(a.st, m, BindOrder, stack)
  }

  /** The order in which setLoggerAll binds the channels. */
  const BindOrder: seq<Channel> := [User, Info, Action, Error, Debug]

  /**
   * `success &= setLogger<Channel>(m)` for each channel in turn: every
   * binding is attempted, and the result is the conjunction.
   */
  function BindEach(s: State, m: string, chs: seq<Channel>, stack: nat): (r: Outcome)
    ensures r.st.cfg == s.cfg
    decreases |chs|
  {
    if chs == [] then Outcome(s, true, false)
    else
      var b := SetLoggerFor(s, chs[0], m, stack);
      if b.aborted then b
      else
        var rest := BindEach(b.st, m, chs[1..], stack);
        Outcome(rest.st, b.value && rest.value, rest.aborted)
  }

  // ---------------------------------------------------------------------
  // Log files and the IDE start-up log

  /** The two file sinks and what distinguishes them. */
  datatype LogKind = DebugKind | UserKind

  function DefaultName(k: LogKind): string
  {
    match k
    case DebugKind => DefaultDebugLogName
    case UserKind => DefaultUserLogName
  }

  /** The file a setDebugLogFile / setUserLogFile call uses. */
  function LogFilePath(k: LogKind, name: string): string
  {
    if IsBlank(name) then DefaultName(k) else name
  }

  /** The debug line a successful switch logs at level 3. */
  function SwitchNote(k: LogKind, path: string): string
  {
    match k
    case DebugKind => "Debug: setLogFile: " + path
    case UserKind => "Debug: setUserLogFile: " + path
  }

  /** The console line a failed switch prints. */
  function SwitchError(k: LogKind, path: string): string
  {
    match k
    case DebugKind => "[Error] Logfile " + path + " not accessible"
    case UserKind => "[Error] User logfile " + path + " not accessible"
  }

  /**
   * setDebugLogFile(name) / setUserLogFile(name): the file is deleted, a new
   * stream is opened (`opens` says whether that worked), and only then the
   * old stream is replaced; otherwise an error line goes to the console.
   */
  function SetLogFile(s: State, k: LogKind, name: string, opens: bool, stack: nat): (r: Outcome)
  {
    var path := LogFilePath(k, name);
    var s1 := s.(files := s.files - {path});
    if opens then
      var l := LogOp(Opened(s1, k, path), 3, SwitchNote(k, path), stack);
      Outcome(l.st, true, l.aborted)
    else
      Outcome(s1.(screen := s1.screen + SwitchError(k, path) + EOL), false, false)
  }

  /** The new stream, opened on an empty file, replaces the old one. */
  function Opened(s: State, k: LogKind, path: string): (r: State)
  {
    var c := match k
             case DebugKind => s.cfg.(debugLog := Some(path))
             case UserKind => s.cfg.(userLog := Some(path));
    s.(cfg := c, files := s.files[path := ""])
  }

  /** setDebugLogFile() / setUserLogFile(): the file name comes from a system property. */
  function SetLogFileFromProperty(s: State, k: LogKind, property: Option<string>, opens: bool, stack: nat): (r: Outcome)
  {
    if property.None? then Outcome(s, false, false)
    else SetLogFile(s, k, LogFilePath(k, property.value), opens, stack)
  }

  /**
   * The class initialiser: the static fields take their initial values,
   * then setDebugLogFile() and setUserLogFile() read the properties
   * sikuli.Logfile and sikuli.UserLogfile.  No logger exists yet, so no
   * redirection can happen and the stack depth does not matter.
   */
  function ClassInit(settings: Settings, host: Host,
                     debugProperty: Option<string>, debugOpens: bool,
                     userProperty: Option<string>, userOpens: bool): (s: State)
  {
    var a := SetLogFileFromProperty(Initial(settings, host), DebugKind, debugProperty, debugOpens, 0);
    SetLogFileFromProperty(a.st, UserKind, userProperty, userOpens, 0).st
  }

  /** Where the IDE start-up log is saved. */
  function IdeStartLogPath(h: Host): string
  {
    h.appDataStore + "/" + IdeStartLogName
  }

  /** Creating the start-up log's File and writing IDE_START_LOG into it. */
  function SaveStartLog(s: State, path: string, writes: bool): (r: State)
  {
    s.(cfg := s.cfg.(startLogFile := Some(path)),
       files := if writes then s.files[path := s.startLog] else s.files)
  }

  /**
   * getIdeStartLog(): once the IDE has started and the log was not saved
   * yet, write IDE_START_LOG to the file (`writes` says whether that
   * worked); keep the file only if the log was not empty and was written.
   * The text returned is the new state's startLog.
   */
  function GetIdeStartLog(s: State, writes: bool, stack: nat): (r: Outcome)
  {
    if s.cfg.startLogFile.Some? || s.cfg.ideStarting then Outcome(s, false, false)
    else
      var path := IdeStartLogPath(s.cfg.host);
      var success := s.startLog != "" && writes;
      var s1 := SaveStartLog(s, path, writes);
      var e := if writes then Outcome(s1, false, false)
               else ErrorOp(s1, "Debug::IDE_START_LOG_FILE: not saved (" + path + ")", stack);
      if e.aborted then Outcome(e.st, false, true)
      else if success then Outcome(e.st, true, false)
      else Outcome(e.st.(cfg := e.st.cfg.(startLogFile := None), files := e.st.files - {path}), false, false)
  }
}
