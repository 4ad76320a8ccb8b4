/**
 * Properties of the logging engine, proved about the functions of LogSpec.
 */
module LogFacts {
  import opened Text
  import opened LogSpec

  // ---------------------------------------------------------------------
  // What the emission core may do to the redirection table and the output

  /** Channel `c` is bound in `t` as in `s`, or was cleared and is in `may`. */
  ghost predicate Kept(s: State, t: State, c: Channel, may: set<Channel>)
  {
    NameOf(t.names, c) == NameOf(s.names, c) || (c in may && NameOf(t.names, c) == "")
  }

  /** No binding of `s` is changed in `t` except by clearing a channel of `may`. */
  ghost predicate OnlyCleared(s: State, t: State, may: set<Channel>)
  {
    forall c :: Kept(s, t, c, may)
  }

  /** The channels whose bindings a failure report can clear. */
  const Reporting: set<Channel> := {Error, Debug}

  /** The channels a private-log line at `level` can clear. */
  function EmitMay(level: int): set<Channel>
  {
    if level == UserLevel then Reporting + {User} else Reporting
  }

  /** Output only grows: deliveries, console, IDE_START_LOG and every existing file. */
  ghost predicate Grows(s: State, t: State)
  {
    && s.delivered <= t.delivered
    && s.screen <= t.screen
    && s.startLog <= t.startLog
    && forall p :: p in s.files ==> p in t.files && s.files[p] <= t.files[p]
  }

  /** Nothing reached a file, the console or IDE_START_LOG. */
  ghost predicate SinksUntouched(s: State, t: State)
  {
    t.files == s.files && t.screen == s.screen && t.startLog == s.startLog
  }

  lemma OnlyClearedTrans(s: State, t: State, u: State, a: set<Channel>, b: set<Channel>)
    requires OnlyCleared(s, t, a) && OnlyCleared(t, u, b)
    ensures OnlyCleared(s, u, a + b)
  {
    forall c ensures Kept(s, u, c, a + b) {
      assert Kept(s, t, c, a) && Kept(t, u, c, b);
    }
  }

  lemma OnlyClearedWeaken(s: State, t: State, a: set<Channel>, b: set<Channel>)
    requires OnlyCleared(s, t, a) && a <= b
    ensures OnlyCleared(s, t, b)
  {
    forall c ensures Kept(s, t, c, b) {
      assert Kept(s, t, c, a);
    }
  }

  /** Facts about bindings carry over between states with the same table. */
  lemma OnlyClearedSameTable(s: State, s1: State, t: State, may: set<Channel>)
    requires s.names == s1.names && OnlyCleared(s1, t, may)
    ensures OnlyCleared(s, t, may)
  {
    forall c ensures Kept(s, t, c, may) {
      assert Kept(s1, t, c, may);
    }
  }

  lemma GrowsTrans(s: State, t: State, u: State)
    requires Grows(s, t) && Grows(t, u)
    ensures Grows(s, u)
  {
  }

  lemma FallbackGrows(s: State, level: int, line: string, msg: string)
    ensures var t := Fallback(s, level, line, msg);
      t.cfg == s.cfg && t.names == s.names && t.delivered == s.delivered && Grows(s, t)
  {
  }

  /**
   * doRedirect changes no binding except by clearing its own channel or
   * (through the failure report) ERROR and DEBUG; output only grows; and
   * in quiet mode nothing reaches a file, the console or the start-up log;
   * outside IDE start-up IDE_START_LOG is left as it is.
   */
  lemma {:induction false} RedirectEffects(s: State, ch: Channel, pre: string, msg: string, stack: nat)
    ensures var r := Redirect(s, ch, pre, msg, stack);
      && OnlyCleared(s, r.st, Reporting + {ch})
      && Grows(s, r.st)
      && (s.cfg.quiet ==> SinksUntouched(s, r.st))
      && (!s.cfg.ideStarting ==> r.st.startLog == s.startLog)
    decreases stack, 0
  {
    var name := NameOf(s.names, ch);
    if s.cfg.logger.Some? && name != "" {
      var text := RedirectPrefix(ch, s.cfg.prefixAll, pre) + msg;
      if !Delivers(s.cfg, name, text) && stack > 0 {
        var report := FailureReport(ch, name, FailureDetail(s.cfg, name, text));
        ErrorEffects(s, report, stack - 1);
        var e := ErrorOp(s, report, stack - 1);
        if e.aborted {
          OnlyClearedWeaken(s, e.st, Reporting, Reporting + {ch});
        } else {
          var t := e.st.(names := e.st.names[ch := ""]);
          assert OnlyCleared(e.st, t, {ch}) by {
            forall c ensures Kept(e.st, t, c, {ch}) {
            }
          }
          OnlyClearedTrans(s, e.st, t, Reporting, {ch});
        }
      }
    }
  }

  /** The same properties for Debug.error. */
  lemma {:induction false} ErrorEffects(s: State, msg: string, stack: nat)
    ensures var r := ErrorOp(s, msg, stack);
      && OnlyCleared(s, r.st, Reporting)
      && Grows(s, r.st)
      && (s.cfg.quiet ==> SinksUntouched(s, r.st))
      && (!s.cfg.ideStarting ==> r.st.startLog == s.startLog)
    decreases stack, 2
  {
    RedirectEffects(s, Error, "", msg, stack);
    var d := Redirect(s, Error, "", msg, stack);
    assert Reporting + {Error} == Reporting;
    if !(d.aborted || d.value) {
      EmitEffects(d.st, -1, ErrorTag, msg, stack);
      var r := Emit(d.st, -1, ErrorTag, msg, stack);
      OnlyClearedTrans(s, d.st, r.st, Reporting + {Error}, Reporting);
      GrowsTrans(s, d.st, r.st);
    }
  }

  /** The same properties for the private log. */
  lemma {:induction false} EmitEffects(s: State, level: int, tag: string, msg: string, stack: nat)
    ensures var r := Emit(s, level, tag, msg, stack);
      && OnlyCleared(s, r.st, EmitMay(level))
      && Grows(s, r.st)
      && (s.cfg.quiet ==> SinksUntouched(s, r.st))
      && (!s.cfg.ideStarting ==> r.st.startLog == s.startLog)
    decreases stack, 1
  {
    if Emits(s, level) {
      var line := LinePrefix(tag, level, s.cfg.settings.logTime, s.cfg.host.dateText);
      if level > UserLevel {
        RedirectEffects(s, Debug, line, msg, stack);
        assert Reporting + {Debug} == EmitMay(level);
      } else if level == UserLevel {
        RedirectEffects(s, User, line, msg, stack);
      } else {
        OnlyClearedWeaken(s, s, {}, EmitMay(level));
      }
      var d := if level > UserLevel then Redirect(s, Debug, line, msg, stack)
               else if level == UserLevel then Redirect(s, User, line, msg, stack)
               else Outcome(s, false, false);
      assert OnlyCleared(s, d.st, EmitMay(level));
      if !(d.aborted || d.value) {
        var t := Fallback(d.st, level, line, msg);
        FallbackGrows(d.st, level, line, msg);
        GrowsTrans(s, d.st, t);
        assert OnlyCleared(s, t, EmitMay(level)) by {
          forall c ensures Kept(s, t, c, EmitMay(level)) {
            assert Kept(s, d.st, c, EmitMay(level));
          }
        }
      }
    }
  }

  // ---------------------------------------------------------------------
  // Level gate, level setters, logx tags and line prefixes

  /**
   * Quiet suppresses the private log at every level; otherwise a line
   * passes exactly when its level is at most DEBUG_LEVEL, so raising the
   * level only ever turns lines on.
   */
  lemma GateDecides(s: State, level: int, tag: string, msg: string, stack: nat)
    ensures s.cfg.quiet ==> !Emits(s, level)
    ensures !s.cfg.quiet ==> (Emits(s, level) <==> level <= s.cfg.level)
    ensures !Emits(s, level) ==> Emit(s, level, tag, msg, stack) == Outcome(s, false, false)
  {
  }

  lemma GateMonotone(s: State, level: int, higher: int)
    requires Emits(s, level) && s.cfg.level <= higher
    ensures Emits(SetDebugLevel(s, higher), level)
  {
  }

  /**
   * setVerbose leaves level 3 and verbose set; setDebugLevel(l) sets
   * Settings.DebugLogs exactly when l > 0; is(k) holds iff the level is at
   * least k; off and reset (setDebugLevel(0)) switch DebugLogs off.
   */
  lemma LevelSetters(s: State, l: int, k: int)
    ensures SetVerbose(s).cfg.level == 3 && SetVerbose(s).cfg.verbose
    ensures SetVerbose(s).cfg.settings.debugLogs
    ensures SetDebugLevel(s, l).cfg.settings.debugLogs <==> l > 0
    ensures Is(SetDebugLevel(s, l), k) <==> k <= l
    ensures SetDebugLevel(s, 0).cfg.level == 0 && !SetDebugLevel(s, 0).cfg.settings.debugLogs
    ensures SetDebugLevel(s, l).names == s.names && SetDebugLevel(s, l).delivered == s.delivered
  {
  }

  /** logx: -1 and -100 are errors, -2 actions, -3 untagged, everything else debug. */
  lemma LogxTags(level: int)
    ensures LogxTag(-1) == "error" && LogxTag(-100) == "error"
    ensures LogxTag(-2) == "log" && LogxTag(-3) == ""
    ensures level !in {-1, -100, -2, -3} ==> LogxTag(level) == "debug"
  {
  }

  /**
   * A non-empty tag is wrapped as "[" + tag + stime + "] ", where stime is
   * the date only with Settings.LogTime and never for user lines (-99);
   * an empty tag gives no prefix at all.
   */
  lemma LinePrefixShape(tag: string, level: int, logTime: bool, date: string)
    ensures tag == "" ==> LinePrefix(tag, level, logTime, date) == ""
    ensures tag != "" && (!logTime || level == UserLevel) ==>
      LinePrefix(tag, level, logTime, date) == "[" + tag + "] "
    ensures tag != "" && logTime && level != UserLevel ==>
      LinePrefix(tag, level, logTime, date) == "[" + tag + " (" + date + ")] "
  {
  }

  /**
   * The prefix of a redirected text: none without prefixAll; otherwise
   * INFO, ACTION and ERROR use their fixed "[info] ", "[log] ", "[error] ",
   * while DEBUG and USER use the line prefix of the caller.
   */
  lemma RedirectPrefixes(c: Channel, prefixAll: bool, pre: string)
    ensures !prefixAll ==> RedirectPrefix(c, prefixAll, pre) == ""
    ensures prefixAll && c == Info ==> RedirectPrefix(c, prefixAll, pre) == "[info] "
    ensures prefixAll && c == Action ==> RedirectPrefix(c, prefixAll, pre) == "[log] "
    ensures prefixAll && c == Error ==> RedirectPrefix(c, prefixAll, pre) == "[error] "
    ensures prefixAll && (c == Debug || c == User) ==> RedirectPrefix(c, prefixAll, pre) == pre
  {
  }

  // ---------------------------------------------------------------------
  // doRedirect

  /** Without a logger, or with the channel unbound, nothing happens and the caller falls back. */
  lemma UnboundRedirectFallsThrough(s: State, ch: Channel, pre: string, msg: string, stack: nat)
    requires s.cfg.logger.None? || NameOf(s.names, ch) == ""
    ensures Redirect(s, ch, pre, msg, stack) == Outcome(s, false, false)
  {
  }

  /** A successful delivery hands exactly prefix + message to the bound method and changes nothing else. */
  lemma RedirectDelivers(s: State, ch: Channel, pre: string, msg: string, stack: nat)
    requires s.cfg.logger.Some? && NameOf(s.names, ch) != ""
    requires Delivers(s.cfg, NameOf(s.names, ch), RedirectPrefix(ch, s.cfg.prefixAll, pre) + msg)
    ensures Redirect(s, ch, pre, msg, stack) ==
      Outcome(s.(delivered := s.delivered +
                 [Delivery(NameOf(s.names, ch), RedirectPrefix(ch, s.cfg.prefixAll, pre) + msg)]),
              true, false)
  {
  }

  /**
   * A failed delivery returns false and leaves its channel unbound; of the
   * other channels only ERROR and DEBUG can lose their binding (through
   * the failure report), and none is bound anew.
   */
  lemma RedirectFailureResets(s: State, ch: Channel, pre: string, msg: string, stack: nat)
    requires s.cfg.logger.Some? && NameOf(s.names, ch) != ""
    requires !Delivers(s.cfg, NameOf(s.names, ch), RedirectPrefix(ch, s.cfg.prefixAll, pre) + msg)
    ensures var r := Redirect(s, ch, pre, msg, stack);
      !r.value && (!r.aborted ==> NameOf(r.st.names, ch) == "" && OnlyCleared(s, r.st, Reporting + {ch}))
  {
    RedirectEffects(s, ch, pre, msg, stack);
  }

  /**
   * When a redirected channel other than ERROR fails and ERROR accepts
   * the report, exactly one report is delivered to ERROR, the failed
   * channel is unbound, and the message itself is not delivered.
   */
  lemma FailureReportedOnce(s: State, ch: Channel, pre: string, msg: string, stack: nat)
    requires ch != Error && stack > 0
    requires s.cfg.logger.Some? && NameOf(s.names, ch) != ""
    requires !Delivers(s.cfg, NameOf(s.names, ch), RedirectPrefix(ch, s.cfg.prefixAll, pre) + msg)
    requires NameOf(s.names, Error) != ""
    requires forall t :: Delivers(s.cfg, NameOf(s.names, Error), t)
    ensures var name := NameOf(s.names, ch);
      var report := FailureReport(ch, name, FailureDetail(s.cfg, name, RedirectPrefix(ch, s.cfg.prefixAll, pre) + msg));
      Redirect(s, ch, pre, msg, stack) ==
        Outcome(s.(names := s.names[ch := ""],
                   delivered := s.delivered + [Delivery(NameOf(s.names, Error), RedirectPrefix(Error, s.cfg.prefixAll, "") + report)]),
                false, false)
  {
    var name := NameOf(s.names, ch);
    var report := FailureReport(ch, name, FailureDetail(s.cfg, name, RedirectPrefix(ch, s.cfg.prefixAll, pre) + msg));
    RedirectDelivers(s, Error, "", report, stack - 1);
  }

  /**
   * The failure of the DEBUG channel for a line, reported through a
   * working ERROR channel: the report is delivered once, DEBUG is unbound,
   * and the line itself goes to its fallback sink once.
   */
  lemma FailedDebugLineFallsBack(s: State, level: int, tag: string, msg: string, stack: nat)
    requires stack > 0 && Emits(s, level) && level > UserLevel
    requires s.cfg.logger.Some? && NameOf(s.names, Debug) != ""
    requires forall t :: !Delivers(s.cfg, NameOf(s.names, Debug), t)
    requires NameOf(s.names, Error) != ""
    requires forall t :: Delivers(s.cfg, NameOf(s.names, Error), t)
    ensures var line := LinePrefix(tag, level, s.cfg.settings.logTime, s.cfg.host.dateText);
      var name := NameOf(s.names, Debug);
      var report := FailureReport(Debug, name, FailureDetail(s.cfg, name, RedirectPrefix(Debug, s.cfg.prefixAll, line) + msg));
      var s1 := s.(names := s.names[Debug := ""],
                   delivered := s.delivered + [Delivery(NameOf(s.names, Error), RedirectPrefix(Error, s.cfg.prefixAll, "") + report)]);
      Emit(s, level, tag, msg, stack) == Outcome(Fallback(s1, level, line, msg), false, false)
  {
    var line := LinePrefix(tag, level, s.cfg.settings.logTime, s.cfg.host.dateText);
    FailureReportedOnce(s, Debug, line, msg, stack);
  }

  // ---------------------------------------------------------------------
  // Re-entry: the failure report runs before the channel is cleared

  /** A DEBUG channel bound to a method that refuses every text, with ERROR unbound. */
  ghost predicate DebugAlwaysFails(s: State)
  {
    && s.cfg.logger.Some?
    && NameOf(s.names, Debug) != ""
    && NameOf(s.names, Error) == ""
    && forall t :: !Delivers(s.cfg, NameOf(s.names, Debug), t)
  }

  /**
   * doRedirect reports a failure through Debug.error before it clears the
   * channel.  With ERROR unbound and error lines let through (level at
   * least -1), the report goes back through the private log to the same
   * failing DEBUG channel, so a line that reaches it never returns: every
   * stack depth is exhausted.
   */
  lemma {:induction false} FailingDebugNeverReturns(s: State, level: int, tag: string, msg: string, stack: nat)
    requires DebugAlwaysFails(s)
    requires UserLevel < level && Emits(s, level) && Emits(s, -1)
    ensures Emit(s, level, tag, msg, stack).aborted
    decreases stack
  {
    if stack > 0 {
      var name := NameOf(s.names, Debug);
      var line := LinePrefix(tag, level, s.cfg.settings.logTime, s.cfg.host.dateText);
      var text := RedirectPrefix(Debug, s.cfg.prefixAll, line) + msg;
      var report := FailureReport(Debug, name, FailureDetail(s.cfg, name, text));
      FailingDebugNeverReturns(s, -1, ErrorTag, report, stack - 1);
      assert Redirect(s, Error, "", report, stack - 1) == Outcome(s, false, false);
      assert ErrorOp(s, report, stack - 1).aborted;
    }
  }

  /** In the same situation Debug.error itself never returns. */
  lemma ErrorNeverReturns(s: State, msg: string, stack: nat)
    requires DebugAlwaysFails(s) && Emits(s, -1)
    ensures ErrorOp(s, msg, stack).aborted
  {
    FailingDebugNeverReturns(s, -1, ErrorTag, msg, stack);
  }

  /**
   * When error lines are gated out (quiet mode, or a level below -1), the
   * report of a failing DEBUG delivery is dropped: the line is written to
   * its sink and the call returns once one nested error call fits.
   */
  lemma GatedFailureReturns(s: State, level: int, tag: string, msg: string, stack: nat)
    requires DebugAlwaysFails(s)
    requires UserLevel < level && Emits(s, level) && !Emits(s, -1) && stack > 0
    ensures !Emit(s, level, tag, msg, stack).aborted
  {
    var name := NameOf(s.names, Debug);
    var line := LinePrefix(tag, level, s.cfg.settings.logTime, s.cfg.host.dateText);
    var text := RedirectPrefix(Debug, s.cfg.prefixAll, line) + msg;
    var report := FailureReport(Debug, name, FailureDetail(s.cfg, name, text));
    assert Redirect(s, Error, "", report, stack - 1) == Outcome(s, false, false);
    assert !ErrorOp(s, report, stack - 1).aborted;
  }

  /** An ERROR channel bound to a method that refuses every text. */
  ghost predicate ErrorAlwaysFails(s: State)
  {
    && s.cfg.logger.Some?
    && NameOf(s.names, Error) != ""
    && forall t :: !Delivers(s.cfg, NameOf(s.names, Error), t)
  }

  /**
   * Debug.error redirects before it consults the level gate, and doRedirect
   * reports a failure through Debug.error before it clears the channel.  So
   * a failing ERROR method sends every report back to itself: error never
   * returns, whatever the level and even in quiet mode.
   */
  lemma {:induction false} FailingErrorNeverReturns(s: State, msg: string, stack: nat)
    requires ErrorAlwaysFails(s)
    ensures ErrorOp(s, msg, stack).aborted
    decreases stack
  {
    if stack > 0 {
      var name := NameOf(s.names, Error);
      var text := RedirectPrefix(Error, s.cfg.prefixAll, "") + msg;
      FailingErrorNeverReturns(s, FailureReport(Error, name, FailureDetail(s.cfg, name, text)), stack - 1);
    }
  }

  // ---------------------------------------------------------------------
  // Quiet mode

  /**
   * Quiet mode keeps every line away from files, the console and the
   * start-up log, but error still tries its redirection first: a working
   * ERROR channel receives errors even when quiet.
   */
  lemma QuietKeepsSinksButNotRedirection(s: State, msg: string, stack: nat)
    requires s.cfg.quiet
    ensures SinksUntouched(s, ErrorOp(s, msg, stack).st)
    ensures s.cfg.logger.Some? && NameOf(s.names, Error) != "" &&
            Delivers(s.cfg, NameOf(s.names, Error), RedirectPrefix(Error, s.cfg.prefixAll, "") + msg)
            ==> ErrorOp(s, msg, stack).value
  {
    ErrorEffects(s, msg, stack);
  }

  /**
   * action always tries ACTION first, so an accepting ACTION method receives
   * its line even when quiet.  info tries INFO only below level 3: at level
   * 3 and above it goes straight to the private log, which drops it when
   * quiet, so nothing at all happens.
   */
  lemma QuietActionAndInfo(s: State, msg: string, stack: nat)
    requires s.cfg.quiet
    ensures var name := NameOf(s.names, Action);
      var text := RedirectPrefix(Action, s.cfg.prefixAll, "") + msg;
      s.cfg.settings.actionLogs && s.cfg.logger.Some? && name != "" && Delivers(s.cfg, name, text) ==>
        ActionOp(s, msg, stack) == Outcome(s.(delivered := s.delivered + [Delivery(name, text)]), true, false)
    ensures var name := NameOf(s.names, Info);
      var text := RedirectPrefix(Info, s.cfg.prefixAll, "") + msg;
      s.cfg.settings.infoLogs && s.cfg.level < 3 && s.cfg.logger.Some? && name != "" && Delivers(s.cfg, name, text) ==>
        InfoOp(s, msg, stack) == Outcome(s.(delivered := s.delivered + [Delivery(name, text)]), true, false)
    ensures s.cfg.level >= 3 ==> InfoOp(s, msg, stack) == Outcome(s, false, false)
  {
    if s.cfg.settings.actionLogs {
      ActionRouting(s, msg, stack);
    }
    if s.cfg.settings.infoLogs {
      InfoRouting(s, msg, stack);
    }
  }

  // ---------------------------------------------------------------------
  // Routing and sinks

  /**
   * A line that passes the gate is offered to DEBUG (levels above -99) or
   * USER (-99); if that channel takes it, it reaches no other sink.
   */
  lemma RedirectedLineStaysOut(s: State, level: int, tag: string, msg: string, stack: nat)
    requires Emits(s, level) && level >= UserLevel
    requires var ch := if level > UserLevel then Debug else User;
      var line := LinePrefix(tag, level, s.cfg.settings.logTime, s.cfg.host.dateText);
      s.cfg.logger.Some? && NameOf(s.names, ch) != "" &&
      Delivers(s.cfg, NameOf(s.names, ch), RedirectPrefix(ch, s.cfg.prefixAll, line) + msg)
    ensures var ch := if level > UserLevel then Debug else User;
      var line := LinePrefix(tag, level, s.cfg.settings.logTime, s.cfg.host.dateText);
      Emit(s, level, tag, msg, stack) ==
        Outcome(s.(delivered := s.delivered + [Delivery(NameOf(s.names, ch), RedirectPrefix(ch, s.cfg.prefixAll, line) + msg)]), true, false)
  {
    var ch := if level > UserLevel then Debug else User;
    var line := LinePrefix(tag, level, s.cfg.settings.logTime, s.cfg.host.dateText);
    RedirectDelivers(s, ch, line, msg, stack);
  }

  /** Lines below -99 are never redirected: they go straight to their sink. */
  lemma BelowUserNeverRedirected(s: State, level: int, tag: string, msg: string, stack: nat)
    requires Emits(s, level) && level < UserLevel
    ensures Emit(s, level, tag, msg, stack) ==
      Outcome(Fallback(s, level, LinePrefix(tag, level, s.cfg.settings.logTime, s.cfg.host.dateText), msg), false, false)
  {
  }

  /**
   * The default route: with no logger, or with the line's channel unbound
   * (DEBUG above -99, USER at -99), a line that passes the gate goes to its
   * sink; unbinding a channel thus reverts its lines to the fallback.
   */
  lemma UnboundLineFallsBack(s: State, level: int, tag: string, msg: string, stack: nat)
    requires Emits(s, level) && level >= UserLevel
    requires s.cfg.logger.None? || NameOf(s.names, if level > UserLevel then Debug else User) == ""
    ensures Emit(s, level, tag, msg, stack) ==
      Outcome(Fallback(s, level, LinePrefix(tag, level, s.cfg.settings.logTime, s.cfg.host.dateText), msg), false, false)
  {
  }

  /**
   * error redirects before it consults the gate: an accepting ERROR method
   * receives the message whatever DEBUG_LEVEL and quiet say, and nothing
   * else happens.
   */
  lemma ErrorRedirectIgnoresGate(s: State, msg: string, stack: nat)
    requires s.cfg.logger.Some? && NameOf(s.names, Error) != ""
    requires Delivers(s.cfg, NameOf(s.names, Error), RedirectPrefix(Error, s.cfg.prefixAll, "") + msg)
    ensures ErrorOp(s, msg, stack) ==
      Outcome(s.(delivered := s.delivered +
                 [Delivery(NameOf(s.names, Error), RedirectPrefix(Error, s.cfg.prefixAll, "") + msg)]),
              true, false)
  {
  }

  /** With no logger or ERROR unbound, error is a line of the private log at -1 tagged "error". */
  lemma UnboundErrorIsLogged(s: State, msg: string, stack: nat)
    requires s.cfg.logger.None? || NameOf(s.names, Error) == ""
    ensures ErrorOp(s, msg, stack) == Emit(s, -1, ErrorTag, msg, stack)
  {
  }

  /**
   * An unredirected line lands in exactly one place: the user file (-99
   * with a user log open), else the debug file, else IDE_START_LOG while
   * the IDE starts (echoed on the console only in console mode), else the
   * console; every other place keeps its contents.
   */
  lemma FallbackOneSink(s: State, level: int, line: string, msg: string)
    ensures var t := Fallback(s, level, line, msg);
      && t.cfg == s.cfg && t.names == s.names && t.delivered == s.delivered
      && (level == UserLevel && s.cfg.userLog.Some? ==>
            t.screen == s.screen && t.startLog == s.startLog &&
            t.files == s.files[s.cfg.userLog.value := FileText(s.files, s.cfg.userLog.value) + (line + msg + EOL)])
      && ((level != UserLevel || s.cfg.userLog.None?) && s.cfg.debugLog.Some? ==>
            t.screen == s.screen && t.startLog == s.startLog &&
            t.files == s.files[s.cfg.debugLog.value := FileText(s.files, s.cfg.debugLog.value) + (line + msg + EOL)])
      && ((level != UserLevel || s.cfg.userLog.None?) && s.cfg.debugLog.None? && s.cfg.ideStarting ==>
            t.files == s.files &&
            t.startLog == s.startLog + StartLine(s.cfg, line, msg) + EOL &&
            t.screen == (if s.cfg.console then s.screen + StartLine(s.cfg, line, msg) + EOL else s.screen))
      && ((level != UserLevel || s.cfg.userLog.None?) && s.cfg.debugLog.None? && !s.cfg.ideStarting ==>
            t.files == s.files && t.startLog == s.startLog && t.screen == s.screen + line + msg + EOL)
  {
  }

  /** A prefixed line in IDE_START_LOG carries the "[SXLOG ...] " time stamp; an unprefixed one is bare. */
  lemma StartLineStamp(c: Config, line: string, msg: string)
    ensures line == "" ==> StartLine(c, line, msg) == msg
    ensures line != "" ==> StartLine(c, line, msg) == "[SXLOG " + c.host.sinceStart + "] " + line + msg
  {
  }

  // ---------------------------------------------------------------------
  // info, action, user

  /**
   * info at level 3 and above does not use the INFO channel at all: the
   * message becomes a level-3 debug line.  Below level 3 a bound INFO
   * method that accepts the text receives it and nothing else happens.
   */
  lemma InfoRouting(s: State, msg: string, stack: nat)
    requires s.cfg.settings.infoLogs
    ensures s.cfg.level >= 3 ==> InfoOp(s, msg, stack) == Emit(s, 3, DebugTag, msg, stack)
    ensures var name := NameOf(s.names, Info);
      var text := RedirectPrefix(Info, s.cfg.prefixAll, "") + msg;
      s.cfg.level < 3 && s.cfg.logger.Some? && name != "" && Delivers(s.cfg, name, text) ==>
        InfoOp(s, msg, stack) == Outcome(s.(delivered := s.delivered + [Delivery(name, text)]), true, false)
  {
    if s.cfg.level < 3 && s.cfg.logger.Some? && NameOf(s.names, Info) != ""
       && Delivers(s.cfg, NameOf(s.names, Info), RedirectPrefix(Info, s.cfg.prefixAll, "") + msg) {
      RedirectDelivers(s, Info, "", msg, stack);
    }
  }

  /**
   * action always offers the message to the ACTION channel first, whatever
   * the level; only when that does not take it does the message become a
   * level-3 debug line (at level 3 and above) or a "log" line at -1.
   */
  lemma ActionRouting(s: State, msg: string, stack: nat)
    requires s.cfg.settings.actionLogs
    ensures var name := NameOf(s.names, Action);
      var text := RedirectPrefix(Action, s.cfg.prefixAll, "") + msg;
      s.cfg.logger.Some? && name != "" && Delivers(s.cfg, name, text) ==>
        ActionOp(s, msg, stack) == Outcome(s.(delivered := s.delivered + [Delivery(name, text)]), true, false)
    ensures s.cfg.logger.None? || NameOf(s.names, Action) == "" ==>
      ActionOp(s, msg, stack) ==
        if s.cfg.level >= 3 then Emit(s, 3, DebugTag, msg, stack) else Emit(s, -1, ActionTag, msg, stack)
  {
    if s.cfg.logger.Some? && NameOf(s.names, Action) != ""
       && Delivers(s.cfg, NameOf(s.names, Action), RedirectPrefix(Action, s.cfg.prefixAll, "") + msg) {
      RedirectDelivers(s, Action, "", msg, stack);
    }
  }

  /**
   * user lines are -99 lines tagged with Settings.UserLogPrefix: the date
   * appears inside the tag when Settings.UserLogTime is set, never as the
   * LogTime stamp.
   */
  lemma UserLinePrefix(s: State, msg: string, stack: nat)
    requires s.cfg.settings.userLogs
    ensures UserOp(s, msg, stack) == Emit(s, UserLevel, UserTag(s.cfg), msg, stack)
    ensures var p := s.cfg.settings.userLogPrefix;
      LinePrefix(UserTag(s.cfg), UserLevel, s.cfg.settings.logTime, s.cfg.host.dateText) ==
        if s.cfg.settings.userLogTime then "[" + p + " (" + s.cfg.host.dateText + ")] "
        else if p == "" then "" else "[" + p + "] "
  {
  }

  // ---------------------------------------------------------------------
  // setLogger, setLoggerNoPrefix

  /**
   * A logger whose class is not a JRuby class is installed, its kind
   * recorded, and prefixAll switched on; the channel bindings of a previous
   * logger are not reset (only the report of a failing redirection can
   * clear ERROR or DEBUG).
   */
  lemma SetLoggerInstalls(s: State, lg: Logger, stack: nat)
    requires !IsJRubyClass(lg)
    ensures var r := SetLogger(s, lg, stack);
      !r.aborted ==>
        && r.st.cfg == s.cfg.(logger := Some(lg), isJython := IsJythonClass(lg), isJRuby := false, prefixAll := true)
        && OnlyCleared(s, r.st, Reporting)
  {
    var s2 := s.(cfg := s.cfg.(isJython := IsJythonClass(lg), isJRuby := false, logger := Some(lg), prefixAll := true));
    EmitEffects(s2, 3, DebugTag, "Debug: setLogger " + lg.shown, stack);
    OnlyClearedSameTable(s, s2, Emit(s2, 3, DebugTag, "Debug: setLogger " + lg.shown, stack).st, Reporting);
  }

  /**
   * A JRuby logger is refused: the old logger stays, but the engine now
   * takes it for a JRuby object, redirection is switched off for good, and
   * the call returns false.
   */
  lemma SetLoggerRefusesJRuby(s: State, lg: Logger, stack: nat)
    requires IsJRubyClass(lg)
    ensures var r := SetLogger(s, lg, stack);
      !r.aborted ==>
        && r.st.cfg == s.cfg.(isJython := IsJythonClass(lg), isJRuby := true, redirectSupported := false)
        && !r.value && OnlyCleared(s, r.st, Reporting)
  {
    var s1 := s.(cfg := s.cfg.(isJython := IsJythonClass(lg), isJRuby := true));
    var a := Logx(s1, 3, "Debug: setLogger: given instance's class: " + lg.className, stack);
    EmitEffects(s1, 3, DebugTag, "Debug: setLogger: given instance's class: " + lg.className, stack);
    if !a.aborted {
      JRubyReported(s, s1, a.st, stack);
    }
  }

  lemma JRubyReported(s: State, s1: State, a: State, stack: nat)
    requires s1.names == s.names && OnlyCleared(s1, a, EmitMay(3))
    ensures var b := ErrorOp(a, "setLogger: not yet supported in JRuby script", stack);
      OnlyCleared(s, b.st.(cfg := b.st.cfg.(redirectSupported := false)), Reporting)
  {
    var b := ErrorOp(a, "setLogger: not yet supported in JRuby script", stack);
    ErrorEffects(a, "setLogger: not yet supported in JRuby script", stack);
    assert EmitMay(3) + Reporting == Reporting;
    OnlyClearedTrans(s1, a, b.st, EmitMay(3), Reporting);
    OnlyClearedSameTable(s, s1, b.st, Reporting);
    var t := b.st.(cfg := b.st.cfg.(redirectSupported := false));
    forall c ensures Kept(s, t, c, Reporting) {
      assert Kept(s, b.st, c, Reporting);
    }
  }

  /** setLoggerNoPrefix installs the same logger with prefixAll off and logs nothing. */
  lemma SetLoggerNoPrefixInstalls(s: State, lg: Logger, stack: nat)
    requires !IsJRubyClass(lg)
    ensures SetLoggerNoPrefix(s, lg, stack) ==
      Outcome(s.(cfg := s.cfg.(logger := Some(lg), isJython := IsJythonClass(lg), isJRuby := false, prefixAll := false)), true, false)
  {
  }

  // ---------------------------------------------------------------------
  // setLoggerUser/Info/Action/Error/Debug and setLoggerAll

  /** Whether asking for method `m` on channel `ch` ends with the channel bound to `m`. */
  predicate Binds(c: Config, m: string, ch: Channel)
  {
    m == "" || BindOk(c, m, ch)
  }

  /** An empty name clears exactly that channel and returns true. */
  lemma ClearOneChannel(s: State, ch: Channel, stack: nat)
    ensures var r := SetLoggerFor(s, ch, "", stack);
      && r.value && !r.aborted
      && NameOf(r.st.names, ch) == ""
      && (forall c :: c != ch ==> NameOf(r.st.names, c) == NameOf(s.names, c))
      && r.st.delivered == s.delivered && SinksUntouched(s, r.st)
  {
  }

  /**
   * Binding a channel succeeds exactly when the logger has the method
   * (Java), says so (Jython checkCallback) or isJRuby was set by the last
   * setLogger call (the installed logger itself is never a JRuby object), and then
   * the channel names `m`; nothing else is bound, and other bindings can
   * only lose ERROR or DEBUG through an error report.  Without a logger
   * it always fails.
   */
  lemma SetLoggerForEffects(s: State, ch: Channel, m: string, stack: nat)
    ensures var r := SetLoggerFor(s, ch, m, stack);
      BindStep(s, r, ch, m, s.cfg) && Grows(s, r.st)
  {
    if m != "" {
      if s.cfg.logger.None? {
        BindWithoutLogger(s, ch, m, stack);
      } else {
        BindWithLogger(s, ch, m, stack);
      }
    }
  }

  lemma BindWithoutLogger(s: State, ch: Channel, m: string, stack: nat)
    requires m != "" && s.cfg.logger.None?
    ensures var r := DoSetLoggerCallback(s, m, ch, stack);
      BindStep(s, r, ch, m, s.cfg) && Grows(s, r.st)
  {
    ErrorEffects(s, "Debug: setLogger: no logger specified yet", stack);
  }

  lemma BindWithLogger(s: State, ch: Channel, m: string, stack: nat)
    requires m != "" && s.cfg.logger.Some?
    ensures var r := DoSetLoggerCallback(s, m, ch, stack);
      BindStep(s, r, ch, m, s.cfg) && Grows(s, r.st)
  {
    var a := NoteUnsupported(s, m, ch, stack);
    NoteUnsupportedEffects(s, m, ch, stack);
    if !a.aborted {
      var lg := s.cfg.logger.value;
      if s.cfg.isJython && !lg.check(m, ch) {
        BindRefusedByJython(s, a.st, ch, m, stack);
      } else if !s.cfg.isJython && !s.cfg.isJRuby && m !in lg.methods {
        BindWithoutMethod(s, a.st, ch, m, stack);
      } else {
        BindDone(s, a.st, ch, m, stack);
      }
    }
  }

  lemma NoteUnsupportedEffects(s: State, m: string, ch: Channel, stack: nat)
    ensures var a := NoteUnsupported(s, m, ch, stack);
      OnlyCleared(s, a.st, Reporting) && Grows(s, a.st)
  {
    if !s.cfg.redirectSupported {
      EmitEffects(s, 3, DebugTag, "Debug: setLogger: " + m + " (" + ChannelText(ch) + ") logger redirect not supported", stack);
    }
  }

  /** What one binding step promises, for a channel `ch`, a method `m` and a configuration `c`. */
  ghost predicate BindStep(s: State, r: Outcome, ch: Channel, m: string, c: Config)
  {
    && (!r.aborted ==> (r.value <==> Binds(c, m, ch)))
    && (r.value ==> NameOf(r.st.names, ch) == m)
    && (forall x :: x != ch || !r.value ==> Kept(s, r.st, x, Reporting))
  }

  lemma BindRefusedByJython(s: State, s1: State, ch: Channel, m: string, stack: nat)
    requires s1.cfg == s.cfg && s.cfg.logger.Some? && m != ""
    requires s.cfg.isJython && !s.cfg.logger.value.check(m, ch)
    requires OnlyCleared(s, s1, Reporting) && Grows(s, s1)
    ensures BindStep(s, BindMethod(s1, m, ch, stack), ch, m, s.cfg) && Grows(s, BindMethod(s1, m, ch, stack).st)
  {
    var t := "Debug: setLogger: Jython: checkCallback returned: " + s.cfg.logger.value.shown;
    var b := Logx(s1, 3, t, stack);
    assert BindMethod(s1, m, ch, stack) == Outcome(b.st, false, b.aborted);
    EmitEffects(s1, 3, DebugTag, t, stack);
    OnlyClearedTrans(s, s1, b.st, Reporting, EmitMay(3));
    assert Reporting + EmitMay(3) == Reporting;
    GrowsTrans(s, s1, b.st);
  }

  lemma BindWithoutMethod(s: State, s1: State, ch: Channel, m: string, stack: nat)
    requires s1.cfg == s.cfg && s.cfg.logger.Some? && m != ""
    requires !s.cfg.isJython && !s.cfg.isJRuby && m !in s.cfg.logger.value.methods
    requires OnlyCleared(s, s1, Reporting) && Grows(s, s1)
    ensures BindStep(s, BindMethod(s1, m, ch, stack), ch, m, s.cfg) && Grows(s, BindMethod(s1, m, ch, stack).st)
  {
    var t := "Debug: setLoggerInfo: redirecting to " + m + " failed: \n" + NoSuchMethodText(s.cfg.logger.value, m);
    var e := ErrorOp(s1, t, stack);
    assert BindMethod(s1, m, ch, stack) == Outcome(e.st, false, e.aborted);
    ErrorEffects(s1, t, stack);
    OnlyClearedTrans(s, s1, e.st, Reporting, Reporting);
    assert Reporting + Reporting == Reporting;
    GrowsTrans(s, s1, e.st);
  }

  lemma BindDone(s: State, s1: State, ch: Channel, m: string, stack: nat)
    requires s1.cfg == s.cfg && s.cfg.logger.Some? && m != ""
    requires !(s.cfg.isJython && !s.cfg.logger.value.check(m, ch))
    requires !(!s.cfg.isJython && !s.cfg.isJRuby && m !in s.cfg.logger.value.methods)
    requires OnlyCleared(s, s1, Reporting) && Grows(s, s1)
    ensures BindStep(s, BindMethod(s1, m, ch, stack), ch, m, s.cfg) && Grows(s, BindMethod(s1, m, ch, stack).st)
  {
    var t := s1.(names := s1.names[ch := m]);
    assert BindMethod(s1, m, ch, stack) == Outcome(t, true, false);
    forall c | c != ch ensures Kept(s, t, c, Reporting) {
      assert Kept(s, s1, c, Reporting);
    }
  }

  /**
   * setLoggerAll without a logger returns false and changes nothing; with
   * redirection switched off it returns false and binds nothing.
   */
  lemma SetLoggerAllRefused(s: State, m: string, stack: nat)
    requires !s.cfg.redirectSupported || s.cfg.logger.None?
    ensures var r := SetLoggerAll(s, m, stack);
      && !r.value
      && OnlyCleared(s, r.st, Reporting)
      && (s.cfg.redirectSupported ==> r == Outcome(s, false, false))
  {
    if !s.cfg.redirectSupported {
      EmitEffects(s, 3, DebugTag, "Debug: setLoggerAll: logger redirect not supported", stack);
    }
  }

  /**
   * setLoggerAll attempts all five bindings and undoes none: it returns
   * true exactly when every channel binds; USER, INFO and ACTION end up
   * naming `m` where they bind and keep their old method where they do
   * not; DEBUG, the last one attempted, names `m` when it binds; ERROR
   * names `m` or was cleared again by a later report; a channel that does
   * not bind keeps its old method or, for ERROR and DEBUG, is cleared.
   */
  lemma SetLoggerAllBinds(s: State, m: string, stack: nat)
    requires s.cfg.redirectSupported && s.cfg.logger.Some?
    ensures var r := SetLoggerAll(s, m, stack);
      !r.aborted ==> AllBound(s, r, m, s.cfg)
  {
    var note := "Debug.setLoggerAll: " + m;
    var a := Logx(s, 3, note, stack);
    EmitEffects(s, 3, DebugTag, note, stack);
    if !a.aborted {
      BindAllAfterNote(s, a.st, m, stack);
    }
  }

  /** The five bindings of setLoggerAll, after a note that only cleared ERROR or DEBUG. */
  lemma BindAllAfterNote(s: State, a: State, m: string, stack: nat)
    requires a.cfg == s.cfg && OnlyCleared(s, a, EmitMay(3))
    ensures var r := BindEach(a, m, BindOrder, stack);
      !r.aborted ==> AllBound(s, r, m, s.cfg)
  {
    var r := BindEach(a, m, BindOrder, stack);
    BindEachEffects(a, m, BindOrder, stack);
    if !r.aborted {
      EveryChannelBound(s, a, r, m, s.cfg);
    }
  }

  /** Binding every channel in BindOrder after a note that only cleared ERROR or DEBUG. */
  lemma EveryChannelBound(s: State, a: State, r: Outcome, m: string, cfg: Config)
    requires OnlyCleared(s, a, EmitMay(3)) && EachBound(a, r, m, BindOrder, cfg)
    ensures AllBound(s, r, m, cfg)
  {
    assert EmitMay(3) == Reporting;
    assert forall c :: c in BindOrder by {
      forall c ensures c in BindOrder {
        match c
        case User => assert BindOrder[0] == c;
        case Info => assert BindOrder[1] == c;
        case Action => assert BindOrder[2] == c;
        case Error => assert BindOrder[3] == c;
        case Debug => assert BindOrder[4] == c;
      }
    }
    forall c | !Binds(cfg, m, c) ensures Kept(s, r.st, c, Reporting) {
      assert Kept(s, a, c, Reporting) && Kept(a, r.st, c, Reporting);
    }
    assert BindOrder[|BindOrder| - 1] == Debug;
  }

  /** What setLoggerAll promises about its outcome `r`. */
  ghost predicate AllBound(s: State, r: Outcome, m: string, cfg: Config)
  {
    && (r.value <==> forall c :: Binds(cfg, m, c))
    && (forall c :: c !in Reporting ==> NameOf(r.st.names, c) == (if Binds(cfg, m, c) then m else NameOf(s.names, c)))
    && (Binds(cfg, m, Debug) ==> NameOf(r.st.names, Debug) == m)
    && (Binds(cfg, m, Error) ==> NameOf(r.st.names, Error) == m || NameOf(r.st.names, Error) == "")
    && (forall c :: !Binds(cfg, m, c) ==> Kept(s, r.st, c, Reporting))
  }

  /** What binding the channels `chs` one after the other promises about its outcome `r`. */
  ghost predicate EachBound(s: State, r: Outcome, m: string, chs: seq<Channel>, cfg: Config)
  {
    && (r.value <==> forall c :: c in chs ==> Binds(cfg, m, c))
    && (forall c :: c !in Reporting ==> NameOf(r.st.names, c) == (if c in chs && Binds(cfg, m, c) then m else NameOf(s.names, c)))
    && (forall c :: c in chs && Binds(cfg, m, c) ==> NameOf(r.st.names, c) == m || NameOf(r.st.names, c) == "")
    && (chs != [] && Binds(cfg, m, chs[|chs| - 1]) ==> NameOf(r.st.names, chs[|chs| - 1]) == m)
    && (forall c :: c !in chs || !Binds(cfg, m, c) ==> Kept(s, r.st, c, Reporting))
    && (chs == [] ==> r.st.names == s.names)
  }

  /**
   * Binding channels one after the other: each channel that binds ends up
   * naming `m` (ERROR and DEBUG unless a later report cleared them, and
   * always for the last one), each that does not keeps its old method or
   * is cleared, and the result is true exactly when all of them bind.
   */
  lemma {:induction false} BindEachEffects(s: State, m: string, chs: seq<Channel>, stack: nat)
    ensures var r := BindEach(s, m, chs, stack);
      !r.aborted ==> EachBound(s, r, m, chs, s.cfg)
    decreases |chs|
  {
    if chs != [] {
      var h := chs[0];
      var b := SetLoggerFor(s, h, m, stack);
      SetLoggerForEffects(s, h, m, stack);
      if !b.aborted {
        var rest := BindEach(b.st, m, chs[1..], stack);
        BindEachEffects(b.st, m, chs[1..], stack);
        if !rest.aborted {
          assert BindEach(s, m, chs, stack) == Outcome(rest.st, b.value && rest.value, false);
          BindOneMore(s, b, rest, m, chs, s.cfg);
        }
      }
    }
  }

  /** One binding step in front of the others keeps EachBound. */
  lemma BindOneMore(s: State, b: Outcome, rest: Outcome, m: string, chs: seq<Channel>, cfg: Config)
    requires chs != [] && !b.aborted && !rest.aborted
    requires BindStep(s, b, chs[0], m, cfg) && EachBound(b.st, rest, m, chs[1..], cfg)
    ensures EachBound(s, Outcome(rest.st, b.value && rest.value, false), m, chs, cfg)
  {
    var h := chs[0];
    var r := Outcome(rest.st, b.value && rest.value, false);
    assert forall c :: c in chs <==> c == h || c in chs[1..];
    assert b.value <==> Binds(cfg, m, h);
    assert r.value <==> forall c :: c in chs ==> Binds(cfg, m, c);
    forall c ensures (c !in chs || !Binds(cfg, m, c)) ==> Kept(s, r.st, c, Reporting) {
      if c !in chs || !Binds(cfg, m, c) {
        assert Kept(s, b.st, c, Reporting) && Kept(b.st, r.st, c, Reporting);
      }
    }
    forall c | c !in Reporting
      ensures NameOf(r.st.names, c) == (if c in chs && Binds(cfg, m, c) then m else NameOf(s.names, c))
    {
      assert Kept(s, b.st, c, Reporting) || c == h;
    }
    forall c | c in chs && Binds(cfg, m, c)
      ensures NameOf(r.st.names, c) == m || NameOf(r.st.names, c) == ""
    {
      if c !in chs[1..] {
        assert Kept(b.st, r.st, c, Reporting);
      }
    }
    if chs[1..] == [] {
      assert chs[|chs| - 1] == h;
    } else {
      assert chs[|chs| - 1] == chs[1..][|chs[1..]| - 1];
    }
  }

  // ---------------------------------------------------------------------
  // setDebugLogFile, setUserLogFile

  /** A blank or empty name means the default file of that kind. */
  lemma LogFileDefaults(k: LogKind, name: string)
    ensures IsBlank(name) ==> LogFilePath(k, name) == DefaultName(k)
    ensures !IsBlank(name) ==> LogFilePath(k, name) == name
    ensures LogFilePath(DebugKind, "") == "SikulixLog.txt" && LogFilePath(UserKind, "") == "SikulixUserLog.txt"
  {
  }

  /**
   * The old file is deleted in any case; the stream is replaced only when
   * the new one opens (then the call returns true and nothing else of the
   * configuration changes), otherwise the configuration stays as it was and
   * an error line goes to the console.
   */
  lemma LogFileSwappedOnlyWhenOpened(s: State, k: LogKind, name: string, opens: bool, stack: nat)
    ensures var r := SetLogFile(s, k, name, opens, stack);
      var path := LogFilePath(k, name);
      && (!r.aborted ==> (r.value <==> opens))
      && (opens && k == DebugKind ==> r.st.cfg == s.cfg.(debugLog := Some(path)))
      && (opens && k == UserKind ==> r.st.cfg == s.cfg.(userLog := Some(path)))
      && (opens ==> OnlyCleared(s, r.st, Reporting))
      && (!opens ==> r == Outcome(s.(files := s.files - {path}, screen := s.screen + SwitchError(k, path) + EOL), false, false))
  {
    if opens {
      var path := LogFilePath(k, name);
      var s1 := s.(files := s.files - {path});
      var c := match k
               case DebugKind => s1.cfg.(debugLog := Some(path))
               case UserKind => s1.cfg.(userLog := Some(path));
      var s2 := s1.(cfg := c, files := s1.files[path := ""]);
      if s2.cfg.settings.debugLogs || s2.cfg.verbose {
        EmitEffects(s2, 3, DebugTag, SwitchNote(k, path), stack);
        OnlyClearedSameTable(s, s2, Emit(s2, 3, DebugTag, SwitchNote(k, path), stack).st, Reporting);
      } else {
        OnlyClearedSameTable(s, s2, s2, {});
        OnlyClearedWeaken(s, s2, {}, Reporting);
      }
    }
  }

  /**
   * Without a logger, or with a logger whose DEBUG channel is unbound, a
   * newly opened log file holds nothing of its old contents: the debug log holds just the switch note (when
   * debug lines are on and level 3 passes), the user log nothing.
   */
  lemma NewLogFileStartsFresh(s: State, k: LogKind, name: string, stack: nat)
    requires s.cfg.logger.None? || NameOf(s.names, Debug) == ""
    requires k == UserKind ==> s.cfg.debugLog != Some(LogFilePath(k, name))
    ensures var r := SetLogFile(s, k, name, true, stack);
      var path := LogFilePath(k, name);
      FileText(r.st.files, path) ==
        if k == DebugKind && (s.cfg.settings.debugLogs || s.cfg.verbose) && Emits(s, 3)
        then LinePrefix(DebugTag, 3, s.cfg.settings.logTime, s.cfg.host.dateText) + SwitchNote(k, path) + EOL
        else ""
  {
    var path := LogFilePath(k, name);
    var s1 := s.(files := s.files - {path});
    var c := match k
             case DebugKind => s1.cfg.(debugLog := Some(path))
             case UserKind => s1.cfg.(userLog := Some(path));
    var s2 := s1.(cfg := c, files := s1.files[path := ""]);
    var line := LinePrefix(DebugTag, 3, s.cfg.settings.logTime, s.cfg.host.dateText);
    if (s.cfg.settings.debugLogs || s.cfg.verbose) && Emits(s, 3) {
      assert Redirect(s2, Debug, line, SwitchNote(k, path), stack) == Outcome(s2, false, false);
      assert Emit(s2, 3, DebugTag, SwitchNote(k, path), stack).st == Fallback(s2, 3, line, SwitchNote(k, path));
      if k == DebugKind {
        assert "" + (line + SwitchNote(k, path) + EOL) == line + SwitchNote(k, path) + EOL;
      }
    }
  }

  /** The property-driven variants do nothing when the property is absent. */
  lemma LogFileFromPropertyAbsent(s: State, k: LogKind, opens: bool, stack: nat)
    ensures SetLogFileFromProperty(s, k, None, opens, stack) == Outcome(s, false, false)
  {
  }

  /**
   * Loading the class opens the log files the properties sikuli.Logfile and
   * sikuli.UserLogfile name (a blank value meaning the default file), when
   * they open; every other field keeps its initial value.
   */
  lemma ClassInitOpensPropertyFiles(settings: Settings, host: Host,
                                    dp: Option<string>, dOpens: bool,
                                    up: Option<string>, uOpens: bool)
    ensures var s := ClassInit(settings, host, dp, dOpens, up, uOpens);
      var i := Initial(settings, host);
      && s.cfg.debugLog == (if dp.Some? && dOpens then Some(LogFilePath(DebugKind, dp.value)) else None)
      && s.cfg.userLog == (if up.Some? && uOpens then Some(LogFilePath(UserKind, up.value)) else None)
      && s.cfg == i.cfg.(debugLog := s.cfg.debugLog, userLog := s.cfg.userLog)
      && s.names == i.names && s.delivered == [] && s.startLog == ""
  {
    var i := Initial(settings, host);
    PropertyFileBelowLevelThree(i, DebugKind, dp, dOpens);
    var a := SetLogFileFromProperty(i, DebugKind, dp, dOpens, 0);
    PropertyFileBelowLevelThree(a.st, UserKind, up, uOpens);
  }

  /** After loading the class, the files it opened are empty. */
  lemma ClassInitFilesEmpty(settings: Settings, host: Host,
                            dp: Option<string>, dOpens: bool,
                            up: Option<string>, uOpens: bool)
    ensures var s := ClassInit(settings, host, dp, dOpens, up, uOpens);
      && (dp.Some? && dOpens ==> FileText(s.files, LogFilePath(DebugKind, dp.value)) == "")
      && (up.Some? && uOpens ==> FileText(s.files, LogFilePath(UserKind, up.value)) == "")
  {
    var i := Initial(settings, host);
    PropertyFileBelowLevelThree(i, DebugKind, dp, dOpens);
    var a := SetLogFileFromProperty(i, DebugKind, dp, dOpens, 0);
    PropertyFileBelowLevelThree(a.st, UserKind, up, uOpens);
    var r := SetLogFileFromProperty(a.st, UserKind, up, uOpens, 0);
    if dp.Some? && dOpens && up.Some? {
      var d := LogFilePath(DebugKind, dp.value);
      assert FileText(a.st.files, d) == "";
      if LogFilePath(UserKind, up.value) != d {
        assert FileText(r.st.files, d) == FileText(a.st.files, d);
      }
    }
  }

  /** After loading the class, the console holds exactly the error lines of the files that did not open. */
  lemma ClassInitScreen(settings: Settings, host: Host,
                        dp: Option<string>, dOpens: bool,
                        up: Option<string>, uOpens: bool)
    ensures ClassInit(settings, host, dp, dOpens, up, uOpens).screen ==
      (if dp.Some? && !dOpens then SwitchError(DebugKind, LogFilePath(DebugKind, dp.value)) + EOL else "")
      + (if up.Some? && !uOpens then SwitchError(UserKind, LogFilePath(UserKind, up.value)) + EOL else "")
  {
    var i := Initial(settings, host);
    PropertyFileBelowLevelThree(i, DebugKind, dp, dOpens);
    var a := SetLogFileFromProperty(i, DebugKind, dp, dOpens, 0);
    PropertyFileBelowLevelThree(a.st, UserKind, up, uOpens);
    var x := if dp.Some? && !dOpens then SwitchError(DebugKind, LogFilePath(DebugKind, dp.value)) + EOL else "";
    assert a.st.screen == x by {
      assert i.screen == "" && "" + x == x;
    }
  }

  /**
   * One property-driven log file switch below level 3: the property's file
   * replaces the stream when it opens, and is reported on the console when
   * it does not; nothing else changes.
   */
  lemma PropertyFileBelowLevelThree(s: State, k: LogKind, p: Option<string>, opens: bool)
    requires s.cfg.level < 3
    ensures var r := SetLogFileFromProperty(s, k, p, opens, 0);
      var path := if p.Some? then LogFilePath(k, p.value) else "";
      && !r.aborted
      && r.st.names == s.names && r.st.delivered == s.delivered && r.st.startLog == s.startLog
      && r.st.cfg == (if p.Some? && opens then
                        match k
                        case DebugKind => s.cfg.(debugLog := Some(path))
                        case UserKind => s.cfg.(userLog := Some(path))
                      else s.cfg)
      && (p.Some? && opens ==> r.st.files == (s.files - {path})[path := ""])
      && (p.Some? && !opens ==> r.st.files == s.files - {path})
      && r.st.screen == s.screen + (if p.Some? && !opens then SwitchError(k, path) + EOL else "")
  {
    if p.Some? {
      PathIsFinal(k, p.value);
      if opens {
        SwitchBelowLevelThree(s, k, LogFilePath(k, p.value), 0);
      } else {
        LogFileSwappedOnlyWhenOpened(s, k, LogFilePath(k, p.value), false, 0);
      }
    }
  }

  /** Resolving a name twice gives the same file. */
  lemma PathIsFinal(k: LogKind, name: string)
    ensures LogFilePath(k, LogFilePath(k, name)) == LogFilePath(k, name)
  {
    assert !IsBlank(DefaultName(k)) by {
      assert DefaultName(k)[0] == 'S';
    }
  }

  /**
   * Below level 3 the switch note is not logged, so opening a log file
   * changes nothing but the file table and the stream.
   */
  lemma SwitchBelowLevelThree(s: State, k: LogKind, name: string, stack: nat)
    requires s.cfg.level < 3
    ensures var r := SetLogFile(s, k, name, true, stack);
      var path := LogFilePath(k, name);
      r == Outcome(s.(cfg := match k
                             case DebugKind => s.cfg.(debugLog := Some(path))
                             case UserKind => s.cfg.(userLog := Some(path)),
                      files := (s.files - {path})[path := ""]), true, false)
  {
    var path := LogFilePath(k, name);
    var s1 := s.(files := s.files - {path});
    var c := match k
             case DebugKind => s1.cfg.(debugLog := Some(path))
             case UserKind => s1.cfg.(userLog := Some(path));
    var s2 := s1.(cfg := c, files := s1.files[path := ""]);
    assert !Emits(s2, 3);
  }

  // ---------------------------------------------------------------------
  // getIdeStartLog

  /**
   * The start-up log is saved at most once, after start-up: the call always
   * returns IDE_START_LOG unchanged; while the IDE starts, or once the file
   * is recorded, it does nothing; otherwise the file is kept (and recorded)
   * exactly when the log was not empty and was written, and is removed and
   * left unrecorded otherwise, so a later call tries again.
   */
  lemma IdeStartLogSaved(s: State, writes: bool, stack: nat)
    ensures var r := GetIdeStartLog(s, writes, stack);
      var path := IdeStartLogPath(s.cfg.host);
      && r.st.startLog == s.startLog
      && (s.cfg.startLogFile.Some? || s.cfg.ideStarting ==> r == Outcome(s, false, false))
      && (s.cfg.startLogFile.None? && !s.cfg.ideStarting && !r.aborted ==>
            && (r.value <==> s.startLog != "" && writes)
            && (r.value ==> r.st.cfg == s.cfg.(startLogFile := Some(path)) && FileText(r.st.files, path) == s.startLog)
            && (!r.value ==> r.st.cfg == s.cfg && path !in r.st.files))
  {
    if s.cfg.startLogFile.None? && !s.cfg.ideStarting {
      if writes {
        IdeStartLogWritten(s, stack);
      } else {
        IdeStartLogNotWritten(s, stack);
      }
    }
  }

  lemma IdeStartLogWritten(s: State, stack: nat)
    requires s.cfg.startLogFile.None? && !s.cfg.ideStarting
    ensures var r := GetIdeStartLog(s, true, stack);
      var path := IdeStartLogPath(s.cfg.host);
      && !r.aborted && r.st.startLog == s.startLog
      && (r.value <==> s.startLog != "")
      && (r.value ==> r.st.cfg == s.cfg.(startLogFile := Some(path)) && FileText(r.st.files, path) == s.startLog)
      && (!r.value ==> r.st.cfg == s.cfg && path !in r.st.files)
  {
  }

  lemma IdeStartLogNotWritten(s: State, stack: nat)
    requires s.cfg.startLogFile.None? && !s.cfg.ideStarting
    ensures var r := GetIdeStartLog(s, false, stack);
      var path := IdeStartLogPath(s.cfg.host);
      && !r.value && r.st.startLog == s.startLog
      && (!r.aborted ==> r.st.cfg == s.cfg && path !in r.st.files)
  {
    var path := IdeStartLogPath(s.cfg.host);
    var s1 := s.(cfg := s.cfg.(startLogFile := Some(path)));
    ErrorEffects(s1, "Debug::IDE_START_LOG_FILE: not saved (" + path + ")", stack);
  }

  /** Once saved, the start-up log is not written again. */
  lemma IdeStartLogNotRewritten(s: State, writes: bool, stack: nat, writes2: bool, stack2: nat)
    requires GetIdeStartLog(s, writes, stack).value
    ensures var r := GetIdeStartLog(s, writes, stack);
      GetIdeStartLog(r.st, writes2, stack2) == Outcome(r.st, false, false)
  {
    IdeStartLogSaved(s, writes, stack);
  }
}
