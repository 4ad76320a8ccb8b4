# SikuliX Debug: a verified model of the logging engine

`org.sikuli.basics.Debug` is the process-wide logging engine of SikuliX. All
of its state is static, except the per-instance timer fields `_beginTime`,
`_message` and `_title`. It covers:

- a numeric debug level, with quiet, verbose and console flags;
- five message kinds (debug, info, action, error, user). Each can be redirected
  to a named one-argument method of a caller-supplied logger object. Delivery
  goes by Java reflection, or through the Jython scripting support;
- fallback sinks: a user log file, a debug log file, the in-memory IDE start-up
  log (while the IDE is starting) and `System.out`;
- a small profiling timer (`startTimer`, `lap`, `end`). Each timer is an
  instance of `Debug`.

The project models `API/src/main/java/org/sikuli/basics/Debug.java`. It has
three layers.

- **`LogSpec`** (`logspec.dfy`) is the engine as values.
  - All static fields form one `State`: the `Config` (level, flags, Settings,
    logger, open streams), the channel bindings, `IDE_START_LOG`, the contents
    of files by path, what went to `System.out`, and what the logger object was
    handed.
  - Every static method is a function from the old `State`. The flag setters
    (`SetDebugLevel`, `SetVerbose`, `IdeStarting`) return the new `State`. The
    others return an `Outcome`: the new state, the boolean the Java method
    returns, and `aborted`.
  - `doRedirect`, `error` and the private `log` call each other exactly as in
    Java: a failed delivery is reported through `error`, which redirects and
    logs again. Nothing in the source bounds this recursion. So each of these
    functions takes `stack`, the number of nested `error` calls the JVM stack
    still allows. When it runs out, the call is `aborted`: a
    `StackOverflowError` escapes it.
- **`LogTimer`** (`timer.dfy`) is the timer fields of a `Debug` instance as a
  value. It has functions for `startTiming`, `endTiming`, `end` and `lap`.
- **`SikuliDebug`** (`debug.dfy`) is the Java code as code.
  - `DebugStatics` is a class whose fields are the static fields. Its methods
    update them step by step, as the static methods do.
  - `DebugTimer` is a class with `_beginTime`, `_message` and `_title`.
  - Each method is proved to leave exactly the state that the matching `LogSpec`
    or `LogTimer` function computes from the old state, and to return what that
    function returns.
  - So everything `LogFacts` and `TimerFacts` prove about those functions holds
    of the methods.
- **`LogFacts`** and **`TimerFacts`** are the properties, stated and proved as
  lemmas.

`Text` (`text.dfy`) has the string helpers the engine relies on: `contains`,
`indexOf`, `replace`, `isBlank`, and the decimal rendering of the elapsed time.

Everything outside the JVM is an input:

- The logger object is a `Logger` value: its class name, its printed form,
  the methods `getMethod` finds, the Jython `checkCallback` answer, and how each
  call turns out (`reply`).
- Whether a log file opens and whether the start-up log is written are boolean
  parameters.
- The formatted date, `Commons.getSinceStart()` and the application data folder
  are a `Host` value.
- The clock reading is the `now` parameter of the timer operations.
- The `Settings` flags are a `Settings` value.
- The system properties `sikuli.Logfile` and `sikuli.UserLogfile` are optional
  strings given to the class initialiser.

## Behaviour worth knowing

Each point follows from the lines of `Debug.java` cited, and the model keeps it.

- **Quiet mode.** `log` returns at once when quiet (Debug.java:712-714).
  `error` (:651-656) and `action` (:613-624) always try their redirection
  before they call `log`, so a bound logger receives them in quiet mode
  (`QuietKeepsSinksButNotRedirection`, `QuietActionAndInfo`). `info` tries
  INFO only below level 3 (:634-637). At level 3 and above it goes straight
  to `logx(3, …)`, so in quiet mode it does nothing at all
  (`QuietActionAndInfo`).
- **Errors are gated.** The doc comment of `error` says "always on"
  (Debug.java:646), but an unredirected error goes through `log(-1, …)`
  (:655), whose level gate (:717) applies to it like any other line. With
  `setDebugLevel(-2)` or in quiet mode, unredirected errors are dropped
  (`GateDecides`).
- **`setLogger` does not reset bindings.** `setLogger` and `setLoggerNoPrefix`
  (Debug.java:178-192) only replace `privateLogger`. The channel names bound
  for the previous logger stay in place (`SetLoggerInstalls`).
- **JRuby loggers.** `doSetLogger` (Debug.java:305-317) refuses a JRuby logger
  but keeps the old logger, sets `isJRuby` and clears
  `loggerRedirectSupported`. That flag only makes `setLoggerAll` refuse
  (:203-206); the single channel setters log a note and still bind (:324-326)
  (`SetLoggerRefusesJRuby`, `SetLoggerForEffects`).
- **Failed deliveries can recurse.** `doRedirect` reports a failure through
  `Debug.error` (Debug.java:429) before it clears the failed channel
  (:430-440).
  - If the ERROR method always fails, each report goes back to the same ERROR
    method. `error` redirects before its level gate (:652), so `error` never
    returns, whatever the level and even in quiet mode
    (`FailingErrorNeverReturns`).
  - If the DEBUG method always fails and ERROR is unbound, the report is a
    level -1 line that goes back to the same DEBUG method. It then never
    returns, provided the report passes the gate: not quiet and
    `DEBUG_LEVEL >= -1` (`FailingDebugNeverReturns`). When the gate drops the
    report, the call returns (`GatedFailureReturns`).
- **Log files that do not open** are reported on `System.out` with
  `System.out.printf` (Debug.java:476-478, :520-522), not through `error`.
- **Timer start at clock 0.** `endTiming` takes `_beginTime == 0` to mean "not
  started" (Debug.java:868). A timer started when the clock reads 0 cannot be
  told from one never started (`StartAtZeroLooksUnstarted`).

## Model

| member | source | states |
|---|---|---|
| Text.IndexOf | API/src/main/java/org/sikuli/basics/Debug.java:854 | the result is -1 exactly when the character is absent, else the index of its first occurrence |
| Text.ReplaceChar | API/src/main/java/org/sikuli/basics/Debug.java:859 | same length, every `from` replaced by `to` and every other character kept, no `from` left |
| Text.HasInfixMeansOccurs | API/src/main/java/org/sikuli/basics/Debug.java:306-308 | `contains` holds exactly when the text occurs at some position of the class name |
| Text.NatTextRoundTrip | API/src/main/java/org/sikuli/basics/Debug.java:878-879 | the decimal rendering of a natural number reads back as that number |
| Text.MillisAsSeconds | API/src/main/java/org/sikuli/basics/Debug.java:878-879 | the rendering of milliseconds as seconds has a '.' before exactly three digits and a leading '-' exactly for negative values |
| Text.MillisReadBack | API/src/main/java/org/sikuli/basics/Debug.java:878-879 | for non-negative milliseconds the digits before the '.' read back as the seconds and the three after it as the remaining milliseconds |
| LogSpec.Redirect | API/src/main/java/org/sikuli/basics/Debug.java:375-445 | doRedirect never changes a configuration field, only bindings and output |
| LogSpec.ErrorOp | API/src/main/java/org/sikuli/basics/Debug.java:651-656 | error never changes a configuration field |
| LogSpec.Emit | API/src/main/java/org/sikuli/basics/Debug.java:710-755 | the private log never changes a configuration field |
| LogSpec.BindEach | API/src/main/java/org/sikuli/basics/Debug.java:209-215 | binding the channels one by one never changes a configuration field |
| LogFacts.RedirectEffects | API/src/main/java/org/sikuli/basics/Debug.java:375-445 | doRedirect changes no binding except by clearing its own channel, ERROR or DEBUG; output only grows; in quiet mode files, console and the start-up log are untouched; outside IDE start-up IDE_START_LOG is unchanged |
| LogFacts.ErrorEffects | API/src/main/java/org/sikuli/basics/Debug.java:651-656 | error clears at most ERROR and DEBUG, only adds output, and touches no sink in quiet mode |
| LogFacts.EmitEffects | API/src/main/java/org/sikuli/basics/Debug.java:710-755 | the private log clears at most ERROR and DEBUG (and USER for a -99 line), only adds output, and touches no sink in quiet mode |
| LogFacts.GateDecides | API/src/main/java/org/sikuli/basics/Debug.java:712-717 | quiet blocks every level; otherwise a line passes exactly when its level is at most DEBUG_LEVEL; a blocked line changes nothing |
| LogFacts.GateMonotone | API/src/main/java/org/sikuli/basics/Debug.java:554-561 | raising the level never blocks a line that passed before |
| LogFacts.LevelSetters | API/src/main/java/org/sikuli/basics/Debug.java:554-581 | setVerbose gives level 3, verbose and DebugLogs; setDebugLevel(l) sets DebugLogs exactly when l > 0; is(k) holds iff k <= l; off and reset switch DebugLogs off; bindings and deliveries are untouched |
| LogFacts.LogxTags | API/src/main/java/org/sikuli/basics/Debug.java:684-694 | -1 and -100 are tagged error, -2 log, -3 nothing, every other level debug |
| LogFacts.LinePrefixShape | API/src/main/java/org/sikuli/basics/Debug.java:718-723 | an empty tag gives no prefix; otherwise "[tag] ", with " (date)" inside the brackets only with LogTime and never for -99 lines |
| LogFacts.RedirectPrefixes | API/src/main/java/org/sikuli/basics/Debug.java:381-403 | without prefixAll no prefix; with it "[info] ", "[log] ", "[error] " for INFO, ACTION, ERROR and the caller's line prefix for DEBUG and USER |
| LogFacts.UnboundRedirectFallsThrough | API/src/main/java/org/sikuli/basics/Debug.java:378-404 | with no logger or an unbound channel doRedirect returns false and changes nothing |
| LogFacts.RedirectDelivers | API/src/main/java/org/sikuli/basics/Debug.java:404-422 | a delivery that succeeds hands exactly prefix + message to the bound method, returns true and changes nothing else |
| LogFacts.RedirectFailureResets | API/src/main/java/org/sikuli/basics/Debug.java:428-441 | a delivery that fails returns false, leaves its channel unbound, and clears no channel other than ERROR and DEBUG |
| LogFacts.FailureReportedOnce | API/src/main/java/org/sikuli/basics/Debug.java:423-441 | with a working ERROR channel the failure is reported there exactly once, the failed channel is cleared and the message is not delivered |
| LogFacts.FailedDebugLineFallsBack | API/src/main/java/org/sikuli/basics/Debug.java:729-741 | a line whose DEBUG delivery fails is reported once to ERROR and then written once to its fallback sink |
| LogFacts.FailingDebugNeverReturns | API/src/main/java/org/sikuli/basics/Debug.java:428-437 | with DEBUG always failing, ERROR unbound and level -1 lines passing the gate (not quiet, DEBUG_LEVEL >= -1), any line that reaches DEBUG exhausts every stack depth |
| LogFacts.ErrorNeverReturns | API/src/main/java/org/sikuli/basics/Debug.java:651-656 | under the same conditions error itself never returns |
| LogFacts.GatedFailureReturns | API/src/main/java/org/sikuli/basics/Debug.java:712-717 | with DEBUG always failing and ERROR unbound but level -1 lines gated out, a line that reaches DEBUG returns once one nested error call fits |
| LogFacts.FailingErrorNeverReturns | API/src/main/java/org/sikuli/basics/Debug.java:428-437 | with the ERROR method always failing, error exhausts every stack depth, at any level and in quiet mode, because it redirects before the gate (:652) |
| LogFacts.QuietKeepsSinksButNotRedirection | API/src/main/java/org/sikuli/basics/Debug.java:651-656 | in quiet mode error reaches no file, console or start-up log, yet a bound ERROR method that accepts still receives it |
| LogFacts.QuietActionAndInfo | API/src/main/java/org/sikuli/basics/Debug.java:613-643 | in quiet mode an accepting ACTION method still receives action lines, and an accepting INFO method receives info lines below level 3; at level 3 and above info changes nothing |
| LogFacts.RedirectedLineStaysOut | API/src/main/java/org/sikuli/basics/Debug.java:729-735 | a line taken by DEBUG (levels above -99) or USER (-99) is delivered once and reaches no sink |
| LogFacts.BelowUserNeverRedirected | API/src/main/java/org/sikuli/basics/Debug.java:729-753 | lines below -99 skip redirection and go straight to their sink |
| LogFacts.UnboundLineFallsBack | API/src/main/java/org/sikuli/basics/Debug.java:729-753 | with no logger, or with DEBUG (above -99) or USER (at -99) unbound, a line that passes the gate goes to its sink and returns false |
| LogFacts.ErrorRedirectIgnoresGate | API/src/main/java/org/sikuli/basics/Debug.java:651-654 | an accepting ERROR method receives prefix + message and nothing else happens, at any level and in quiet mode |
| LogFacts.UnboundErrorIsLogged | API/src/main/java/org/sikuli/basics/Debug.java:651-656 | with no logger or ERROR unbound, error is the private log at -1 with the "error" tag |
| LogFacts.FallbackOneSink | API/src/main/java/org/sikuli/basics/Debug.java:735-752 | an unredirected line lands in exactly one place: user file for -99, else debug file, else IDE_START_LOG while starting (echoed in console mode), else System.out; every other place keeps its contents |
| LogFacts.StartLineStamp | API/src/main/java/org/sikuli/basics/Debug.java:744 | a prefixed start-up log line carries "[SXLOG time] ", an unprefixed one is bare |
| LogFacts.InfoRouting | API/src/main/java/org/sikuli/basics/Debug.java:632-643 | at level 3 and above info is a level-3 debug line and never uses INFO; below it an accepting INFO method receives the text and nothing else happens |
| LogFacts.ActionRouting | API/src/main/java/org/sikuli/basics/Debug.java:613-624 | action always tries ACTION first; unbound, it becomes a level-3 debug line at level 3 and above, else a "log" line at -1 |
| LogFacts.UserLinePrefix | API/src/main/java/org/sikuli/basics/Debug.java:595-605 | user lines are -99 lines tagged with UserLogPrefix, with the date inside the tag exactly when UserLogTime is set |
| LogFacts.SetLoggerInstalls | API/src/main/java/org/sikuli/basics/Debug.java:178-182 | a non-JRuby logger is installed with its Jython flag, JRuby off and prefixAll on; no binding is reset, only ERROR or DEBUG can be cleared by a report |
| LogFacts.SetLoggerRefusesJRuby | API/src/main/java/org/sikuli/basics/Debug.java:305-314 | a JRuby logger is refused: old logger kept, isJRuby set, redirection switched off, false returned |
| LogFacts.SetLoggerNoPrefixInstalls | API/src/main/java/org/sikuli/basics/Debug.java:189-192 | setLoggerNoPrefix installs the logger with prefixAll off and logs nothing |
| LogFacts.ClearOneChannel | API/src/main/java/org/sikuli/basics/Debug.java:229-303 | an empty method name unbinds exactly that channel, returns true and emits nothing |
| LogFacts.SetLoggerForEffects | API/src/main/java/org/sikuli/basics/Debug.java:319-373 | binding succeeds exactly when the logger has the method (Java), confirms it (Jython) or `isJRuby` is set by the last `setLogger` call; on success the channel names the method; no other channel is bound; fails without a logger |
| LogFacts.SetLoggerAllRefused | API/src/main/java/org/sikuli/basics/Debug.java:202-206 | with redirection off or no logger setLoggerAll returns false and binds nothing |
| LogFacts.SetLoggerAllBinds | API/src/main/java/org/sikuli/basics/Debug.java:207-216 | setLoggerAll returns true exactly when all five channels bind; each channel that binds names the method (ERROR possibly cleared by a later report), each that does not keeps its old binding or is cleared |
| LogFacts.BindEachEffects | API/src/main/java/org/sikuli/basics/Debug.java:209-215 | the `success &=` chain: the result is true exactly when every channel binds, and each channel ends bound or kept as above |
| LogFacts.LogFileDefaults | API/src/main/java/org/sikuli/basics/Debug.java:459-462 | a blank name means SikulixLog.txt or SikulixUserLog.txt; any other name is kept |
| LogFacts.LogFileSwappedOnlyWhenOpened | API/src/main/java/org/sikuli/basics/Debug.java:463-481 | the old file is always deleted; the stream is replaced and true returned exactly when the new one opens; otherwise only an error line on the console |
| LogFacts.NewLogFileStartsFresh | API/src/main/java/org/sikuli/basics/Debug.java:503-525 | with no logger or an unbound DEBUG channel, a reopened file keeps none of its old contents: the debug log holds just the switch note when it is logged; a user log opened on a path other than the current debug log holds nothing (on that path it also receives the switch note, a case the lemma excludes) |
| LogFacts.LogFileFromPropertyAbsent | API/src/main/java/org/sikuli/basics/Debug.java:483-492 | without the system property nothing happens |
| LogFacts.ClassInitOpensPropertyFiles | API/src/main/java/org/sikuli/basics/Debug.java:120-123 | loading the class opens the files the properties name (blank meaning the default) exactly when the property is set and the file opens; every other field keeps its initial value |
| LogFacts.ClassInitFilesEmpty | API/src/main/java/org/sikuli/basics/Debug.java:120-123 | the files opened while loading the class are empty |
| LogFacts.ClassInitScreen | API/src/main/java/org/sikuli/basics/Debug.java:120-123 | after loading the class the console holds exactly the error lines of the property files that did not open, debug first |
| LogFacts.PropertyFileBelowLevelThree | API/src/main/java/org/sikuli/basics/Debug.java:483-536 | below level 3 a property-driven switch replaces the stream and empties the file when it opens, or deletes the file and prints the error line when it does not, and changes nothing else |
| LogFacts.PathIsFinal | API/src/main/java/org/sikuli/basics/Debug.java:488-491 | resolving a resolved name again gives the same file |
| LogFacts.SwitchBelowLevelThree | API/src/main/java/org/sikuli/basics/Debug.java:474 | below level 3 the switch note is not logged, so opening a file changes only the stream and the file table |
| LogFacts.IdeStartLogSaved | API/src/main/java/org/sikuli/basics/Debug.java:81-95 | getIdeStartLog returns IDE_START_LOG unchanged; does nothing while starting or once saved; otherwise keeps and records the file exactly when the log is non-empty and written, else deletes it and leaves it unrecorded |
| LogFacts.IdeStartLogNotRewritten | API/src/main/java/org/sikuli/basics/Debug.java:82 | once saved, the start-up log is not written again |
| TimerFacts.NotStartedGivesMinusOne | API/src/main/java/org/sikuli/basics/Debug.java:867-871 | end and lap on a timer never started return -1 and leave it unchanged |
| TimerFacts.EndStops | API/src/main/java/org/sikuli/basics/Debug.java:872-881 | end returns the milliseconds since the start and stops the timer |
| TimerFacts.SecondEndFails | API/src/main/java/org/sikuli/basics/Debug.java:867-876 | a second end returns -1 |
| TimerFacts.LapKeepsRunning | API/src/main/java/org/sikuli/basics/Debug.java:844-850 | lap returns the milliseconds since the start and leaves the timer running |
| TimerFacts.StartSplitsTitle | API/src/main/java/org/sikuli/basics/Debug.java:852-865 | without a tab the title is null; with one it is the text before the first tab, and the message is the input with tabs turned into spaces; the start time is recorded |
| TimerFacts.StartThenEnd | API/src/main/java/org/sikuli/basics/Debug.java:817-835 | a timer started at n1 and ended at n2 reports n2 - n1 |
| TimerFacts.LapThenEnd | API/src/main/java/org/sikuli/basics/Debug.java:844-850 | laps do not disturb the final end |
| TimerFacts.StartAtZeroLooksUnstarted | API/src/main/java/org/sikuli/basics/Debug.java:864-868 | a timer started when the clock reads 0 ends with -1 |
| TimerFacts.SilentWithoutProfileLogs | API/src/main/java/org/sikuli/basics/Debug.java:773-777 | without ProfileLogs the timer reports nothing and leaves the engine unchanged |
| TimerFacts.ReportedSeconds | API/src/main/java/org/sikuli/basics/Debug.java:878-879 | the reported elapsed time reads back as whole seconds and milliseconds |
| TimerFacts.ReportedNegativeSeconds | API/src/main/java/org/sikuli/basics/Debug.java:878-879 | a negative difference is reported as '-' before the rendering of its magnitude, which reads back as seconds and milliseconds |
| SikuliDebug.DebugStatics.constructor | API/src/main/java/org/sikuli/basics/Debug.java:120-123 | the fields after class loading are those ClassInit computes |
| SikuliDebug.DebugStatics.DoRedirect | API/src/main/java/org/sikuli/basics/Debug.java:375-445 | the new fields, the result and stack exhaustion are those of Redirect |
| SikuliDebug.DebugStatics.Error | API/src/main/java/org/sikuli/basics/Debug.java:651-656 | the new fields are those of ErrorOp |
| SikuliDebug.DebugStatics.Log | API/src/main/java/org/sikuli/basics/Debug.java:710-755 | the new fields are those of Emit |
| SikuliDebug.DebugStatics.WriteToSink | API/src/main/java/org/sikuli/basics/Debug.java:735-752 | the new fields are those of Fallback |
| SikuliDebug.DebugStatics.LogAt | API/src/main/java/org/sikuli/basics/Debug.java:665-682 | the new fields are those of LogOp |
| SikuliDebug.DebugStatics.Logx | API/src/main/java/org/sikuli/basics/Debug.java:684-694 | the new fields are those of LogSpec.Logx |
| SikuliDebug.DebugStatics.User | API/src/main/java/org/sikuli/basics/Debug.java:595-605 | the new fields are those of UserOp |
| SikuliDebug.DebugStatics.Action | API/src/main/java/org/sikuli/basics/Debug.java:613-624 | the new fields are those of ActionOp |
| SikuliDebug.DebugStatics.Info | API/src/main/java/org/sikuli/basics/Debug.java:632-643 | the new fields are those of InfoOp |
| SikuliDebug.DebugStatics.Print | API/src/main/java/org/sikuli/basics/Debug.java:701-708 | the new fields are those of PrintOp and the message is returned |
| SikuliDebug.DebugStatics.Profile | API/src/main/java/org/sikuli/basics/Debug.java:773-777 | the new fields are those of ProfileOp |
| SikuliDebug.DebugStatics.Enter | API/src/main/java/org/sikuli/basics/Debug.java:785-787 | a profile line "entering: " + message |
| SikuliDebug.DebugStatics.Exit | API/src/main/java/org/sikuli/basics/Debug.java:795-797 | a profile line "exiting: " + message |
| SikuliDebug.DebugStatics.Is | API/src/main/java/org/sikuli/basics/Debug.java:567-569 | agrees with LogSpec.Is on the current fields |
| SikuliDebug.DebugStatics.SetDebugLevel | API/src/main/java/org/sikuli/basics/Debug.java:554-561 | the new fields are those of LogSpec.SetDebugLevel |
| SikuliDebug.DebugStatics.On | API/src/main/java/org/sikuli/basics/Debug.java:563-565 | the same as setDebugLevel |
| SikuliDebug.DebugStatics.Off | API/src/main/java/org/sikuli/basics/Debug.java:575-577 | the same as setDebugLevel(0) |
| SikuliDebug.DebugStatics.Reset | API/src/main/java/org/sikuli/basics/Debug.java:579-581 | the same as setDebugLevel(0) |
| SikuliDebug.DebugStatics.SetVerbose | API/src/main/java/org/sikuli/basics/Debug.java:39-42 | the new fields are those of LogSpec.SetVerbose |
| SikuliDebug.DebugStatics.SetQuiet | API/src/main/java/org/sikuli/basics/Debug.java:50-52 | only quiet changes, to true |
| SikuliDebug.DebugStatics.SetConsole | API/src/main/java/org/sikuli/basics/Debug.java:60-62 | only console changes, to true |
| SikuliDebug.DebugStatics.IsIdeStarting | API/src/main/java/org/sikuli/basics/Debug.java:71-76 | sets the flag when one is given and returns the flag |
| SikuliDebug.DebugStatics.DoSetLogger | API/src/main/java/org/sikuli/basics/Debug.java:305-317 | the new fields and the result are those of LogSpec.DoSetLogger |
| SikuliDebug.DebugStatics.RefuseJRuby | API/src/main/java/org/sikuli/basics/Debug.java:309-313 | the new fields are those of LogSpec.RefuseJRuby, whose result is false |
| SikuliDebug.DebugStatics.SetLogger | API/src/main/java/org/sikuli/basics/Debug.java:178-182 | the new fields are those of LogSpec.SetLogger |
| SikuliDebug.DebugStatics.SetLoggerNoPrefix | API/src/main/java/org/sikuli/basics/Debug.java:189-192 | the new fields are those of LogSpec.SetLoggerNoPrefix |
| SikuliDebug.DebugStatics.DoSetLoggerCallback | API/src/main/java/org/sikuli/basics/Debug.java:319-373 | the new fields and the result are those of LogSpec.DoSetLoggerCallback |
| SikuliDebug.DebugStatics.SetLoggerFor | API/src/main/java/org/sikuli/basics/Debug.java:229-303 | the new fields and the result are those of LogSpec.SetLoggerFor |
| SikuliDebug.DebugStatics.SetLoggerAll | API/src/main/java/org/sikuli/basics/Debug.java:202-218 | the loop of five bindings leaves the fields LogSpec.SetLoggerAll computes and returns its result |
| SikuliDebug.DebugStatics.SetLogFile | API/src/main/java/org/sikuli/basics/Debug.java:459-525 | the new fields and the result are those of LogSpec.SetLogFile |
| SikuliDebug.DebugStatics.SetLogFileFromProperty | API/src/main/java/org/sikuli/basics/Debug.java:483-536 | the new fields are those of LogSpec.SetLogFileFromProperty |
| SikuliDebug.DebugStatics.GetIdeStartLog | API/src/main/java/org/sikuli/basics/Debug.java:81-95 | the new fields are those of LogSpec.GetIdeStartLog and IDE_START_LOG is returned |
| SikuliDebug.DebugTimer.constructor | API/src/main/java/org/sikuli/basics/Debug.java:763-765 | a new timer is not started and has no message or title |
| SikuliDebug.DebugTimer.StartTiming | API/src/main/java/org/sikuli/basics/Debug.java:852-865 | the timer fields and the engine are those of LogTimer.StartTiming |
| SikuliDebug.DebugTimer.StartTimer | API/src/main/java/org/sikuli/basics/Debug.java:817-821 | a fresh timer, started as LogTimer.StartTimer says |
| SikuliDebug.DebugTimer.EndTiming | API/src/main/java/org/sikuli/basics/Debug.java:867-882 | the timer, the engine and the elapsed time are those of LogTimer.EndTiming |
| SikuliDebug.DebugTimer.Finish | API/src/main/java/org/sikuli/basics/Debug.java:872-881 | on a running timer: stopped unless this is a lap, the elapsed time is now minus the start, and the engine is as LogTimer.EndReport says |
| SikuliDebug.DebugTimer.ReportEnd | API/src/main/java/org/sikuli/basics/Debug.java:877-880 | the engine fields are those of LogTimer.EndReport |
| SikuliDebug.DebugTimer.End | API/src/main/java/org/sikuli/basics/Debug.java:829-835 | the timer, the engine and the elapsed time are those of LogTimer.End |
| SikuliDebug.DebugTimer.Lap | API/src/main/java/org/sikuli/basics/Debug.java:844-850 | the timer, the engine and the elapsed time are those of LogTimer.Lap |

## Left out

- Varargs formatting (`String.format(message, args)`): every message is taken as already rendered. The engine's own `%s` messages are written out by concatenation.
- `DateFormat` and locale: the date is the `Host.dateText` input. The `"%4.3f"` rendering of `Commons.getSinceStart()` is the `Host.sinceStart` input.
- Text.MillisAsSeconds: renders `dt / 1000` exactly, to the millisecond, instead of as `float` with `%.3f`. Float rounding of very large differences and locale decimal separators are not modelled.
- `Commons.asFile` and `getAbsolutePath`: the log file path is the given name (or the default name), not resolved against a folder.
- `String.isBlank` is modelled for Latin-1 whitespace only, not all of `Character.isWhitespace`.
- `null` arguments: names and messages are strings, and the setters treat `null` as the empty string. A `null` `_message` of a fresh timer is `None` and prints as "null".
- `setLogger(null)` and `setLoggerNoPrefix(null)`: `doSetLogger` then throws a `NullPointerException` at `logger.getClass()` (Debug.java:306). A `Logger` value is never null, so this case is not modelled.
- Reflection `Method` handles: delivery asks the current logger's `reply` by method name. Two cases are not modelled. A handle kept from an earlier logger of another class is one. The other is a handle that is still `null` because the channel was bound while `isJython` or `isJRuby` was set, so `getMethod` was skipped. If a Java logger is installed later, `invoke` throws a `NullPointerException`, and the `catch` turns it into a failed delivery (Debug.java:419). The model asks the logger's `reply` instead, which may deliver.
- The Jython scripting calls (`checkCallback`, `runLoggerCallback`) are the `check` and `reply` fields of `Logger`.
- `synchronized` and concurrent callers are not modelled: each call runs alone.
- `pop` (`SX.popup`), `highlight`, `timeNow`, `timeSince`, `runShutDown` and `printIdeStartLog` are left out: they are GUI, clock or one-line wrappers.
- `logp` is left out: it is a deprecated alias of `print`. `log(message)` is `LogAt(0, message)`.
- The getters `getDebugLevel`, `is()`, `isVerbose`, `isQuiet`, `isConsole` and `getIdeStartLogFile` are left out: each returns one field of `DebugStatics`.
- The recorder files of the package are not part of this model.
- The `stack` bound stands for the JVM stack. A `StackOverflowError` is `aborted`, with the fields as they were when it struck.
- SikuliDebug.DebugStatics.SetLoggerAll: after `aborted` the returned `success` is not stated, because Java returns nothing then.
- SikuliDebug.DebugStatics.GetIdeStartLog: after `aborted` the returned log is not stated, because Java returns nothing then.
- `Settings` and the host environment are inputs (`SetSettings`, `SetHost`); the rest of SikuliX that changes them is not part of this model.
- Java `long` wrap-around of `now - _beginTime` is not modelled: times are unbounded integers.
- Closing the old `PrintStream`, and deleting a file that is still open, are not modelled: a file is its text.
- `System.lineSeparator()` is taken as "\n".
