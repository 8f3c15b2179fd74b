/**
 * The logger: the level filter each output stream applies to the messages
 * it receives, the registry of named streams, and the tagged messages the
 * `Log*` helpers queue. The input channel is an outbox; the fan-out from
 * the input channel to every stream is the pure function `StreamOutput`
 * applied to that outbox. The operating system the logger runs on is a
 * parameter.
 */
module Logger {
  /** Capacity of the input channel and of every stream's channel (not modelled: the outbox is unbounded). */
  const LOG_QUEUE_SIZE := 100

  /** Stream levels: what a registered stream lets through. */
  const LOGLEVEL_NOT_SET: bv64 := 0
  const LOGLEVEL_DEBUG: bv64 := 1
  const LOGLEVEL_MESSAGE: bv64 := 2
  const LOGLEVEL_WARNING: bv64 := 4
  const LOGLEVEL_PASS_FAIL: bv64 := 8
  const LOGLEVEL_ERROR: bv64 := 16
  const LOGLEVEL_ALL: bv64 := 32

  /** Message levels: what a queued message is. */
  const LOG_UNKNOWN: bv64 := 0
  const LOG_DEBUG: bv64 := 1
  const LOG_MESSAGE: bv64 := 2
  const LOG_WARNING: bv64 := 4
  const LOG_PASS: bv64 := 8
  const LOG_FAIL: bv64 := 16
  const LOG_ERROR: bv64 := 32

  /** The levels the `Log*` helpers use. */
  predicate IsMessageLevel(m: bv64) {
    m == LOG_DEBUG || m == LOG_MESSAGE || m == LOG_WARNING || m == LOG_PASS || m == LOG_FAIL || m == LOG_ERROR
  }

  /** A queued message: its level and its (already tagged) pattern. */
  datatype LogArg = LogArg(level: bv64, pattern: string)

  /** A registered stream: its level and the debug mode captured when it was added. */
  datatype LogStream = LogStream(level: bv64, debug: bool)

  /**
   * The switch a stream runs on each message it receives: true when the
   * message is printed. The cases are tried in order and the first whose
   * condition holds decides; a message no case accepts is dropped.
   */
  predicate Prints(streamLevel: bv64, debug: bool, mesLevel: bv64) {
    if streamLevel == LOGLEVEL_ALL then true
    else if streamLevel == LOGLEVEL_MESSAGE then
      (mesLevel != LOG_DEBUG) || (mesLevel == LOG_DEBUG && debug)
    else if streamLevel == LOGLEVEL_WARNING && mesLevel & (LOG_WARNING | LOG_ERROR) != 0 then true
    else if streamLevel == LOGLEVEL_ERROR && mesLevel == LOG_ERROR then true
    else if streamLevel == LOGLEVEL_PASS_FAIL && mesLevel & (LOG_PASS | LOG_FAIL) != 0 then true
    else false
  }

  /**
   * The reference table: for each stream level, the message levels it
   * prints, written out level by level.
   */
  function PrintedLevels(streamLevel: bv64, debug: bool): (levels: set<bv64>)
    ensures forall m | m in levels :: IsMessageLevel(m)
  {
    if streamLevel == LOGLEVEL_ALL then {LOG_DEBUG, LOG_MESSAGE, LOG_WARNING, LOG_PASS, LOG_FAIL, LOG_ERROR}
    else if streamLevel == LOGLEVEL_MESSAGE then
      {LOG_MESSAGE, LOG_WARNING, LOG_PASS, LOG_FAIL, LOG_ERROR} + (if debug then {LOG_DEBUG} else {})
    else if streamLevel == LOGLEVEL_WARNING then {LOG_WARNING, LOG_ERROR}
    else if streamLevel == LOGLEVEL_ERROR then {LOG_ERROR}
    else if streamLevel == LOGLEVEL_PASS_FAIL then {LOG_PASS, LOG_FAIL}
    else {}
  }

  /** On the levels the helpers use, the switch agrees with the table, in both directions. */
  lemma PrintsMatchesTable(streamLevel: bv64, debug: bool, mesLevel: bv64)
    requires IsMessageLevel(mesLevel)
    ensures Prints(streamLevel, debug, mesLevel) <==> mesLevel in PrintedLevels(streamLevel, debug)
  {
  }

  /** An `ALL` stream prints every message, whatever its level. */
  lemma AllPrintsEverything(debug: bool, mesLevel: bv64)
    ensures Prints(LOGLEVEL_ALL, debug, mesLevel)
  {
  }

  /**
   * A `MESSAGE` stream prints every message but a debug one, and a debug one
   * exactly when the stream was added in debug mode.
   */
  lemma MessageStreamGatesDebug(debug: bool, mesLevel: bv64)
    ensures mesLevel != LOG_DEBUG ==> Prints(LOGLEVEL_MESSAGE, debug, mesLevel)
    ensures Prints(LOGLEVEL_MESSAGE, debug, LOG_DEBUG) <==> debug
  {
  }

  /**
   * A stream at any level other than the five the switch names, such as
   * `DEBUG` or `NOT_SET`, prints nothing.
   */
  lemma OtherLevelsPrintNothing(streamLevel: bv64, debug: bool, mesLevel: bv64)
    requires streamLevel !in {LOGLEVEL_ALL, LOGLEVEL_MESSAGE, LOGLEVEL_WARNING, LOGLEVEL_ERROR, LOGLEVEL_PASS_FAIL}
    ensures !Prints(streamLevel, debug, mesLevel)
  {
  }

  /**
   * What a stream prints of the messages it receives, in order: the
   * patterns of the messages its switch accepts.
   */
  function StreamOutput(s: LogStream, msgs: seq<LogArg>): (out: seq<string>)
    ensures |out| <= |msgs|
  {
    if msgs == [] then []
    else
      var rest := StreamOutput(s, msgs[..|msgs| - 1]);
      var m := msgs[|msgs| - 1];
      if Prints(s.level, s.debug, m.level) then rest + [m.pattern] else rest
  }

  /** The patterns of a queue of messages, in order. */
  function Patterns(msgs: seq<LogArg>): (ps: seq<string>)
    ensures |ps| == |msgs| && forall i | 0 <= i < |msgs| :: ps[i] == msgs[i].pattern
  {
    if msgs == [] then [] else Patterns(msgs[..|msgs| - 1]) + [msgs[|msgs| - 1].pattern]
  }

  /** A stream's output on two batches is its output on the first followed by its output on the second. */
  lemma {:induction false} StreamOutputAppend(s: LogStream, a: seq<LogArg>, b: seq<LogArg>)
    ensures StreamOutput(s, a + b) == StreamOutput(s, a) + StreamOutput(s, b)
    decreases |b|
  {
    if b == [] {
      assert a + b == a;
    } else {
      var b' := b[..|b| - 1];
      assert (a + b)[..|a + b| - 1] == a + b';
      assert (a + b)[|a + b| - 1] == b[|b| - 1];
      StreamOutputAppend(s, a, b');
    }
  }

  /** An `ALL` stream echoes every pattern, in order. */
  lemma {:induction false} AllStreamEchoesEverything(debug: bool, msgs: seq<LogArg>)
    ensures StreamOutput(LogStream(LOGLEVEL_ALL, debug), msgs) == Patterns(msgs)
    decreases |msgs|
  {
    if msgs != [] {
      AllStreamEchoesEverything(debug, msgs[..|msgs| - 1]);
    }
  }

  /** A stream whose level the switch does not name prints nothing at all. */
  lemma {:induction false} SilentStreamPrintsNothing(s: LogStream, msgs: seq<LogArg>)
    requires s.level !in {LOGLEVEL_ALL, LOGLEVEL_MESSAGE, LOGLEVEL_WARNING, LOGLEVEL_ERROR, LOGLEVEL_PASS_FAIL}
    ensures StreamOutput(s, msgs) == []
    decreases |msgs|
  {
    if msgs != [] {
      SilentStreamPrintsNothing(s, msgs[..|msgs| - 1]);
      OtherLevelsPrintNothing(s.level, s.debug, msgs[|msgs| - 1].level);
    }
  }

  /** The line ending: a bare newline on linux, carriage return and newline elsewhere. */
  function LineEnd(goos: string): (end: string)
    ensures end == "\n" <==> goos == "linux"
    ensures end == "\r\n" <==> goos != "linux"
  {
    if goos == "linux" then "\n" else "\r\n"
  }

  /** A helper's pattern: its tag, the caller's message, the line ending. */
  function Tagged(tag: string, msg: string, end: string): (pattern: string)
    ensures |pattern| == |tag| + |msg| + |end|
    ensures pattern[..|tag|] == tag && pattern[|pattern| - |end|..] == end
  {
    tag + msg + end
  }

  /** The caller's message inside a tagged pattern. */
  function Untagged(tag: string, end: string, pattern: string): (msg: string)
    requires |tag| + |end| <= |pattern|
  {
    pattern[|tag|..|pattern| - |end|]
  }

  /** Tagging loses nothing: the caller's message is recovered from the pattern. */
  lemma UntagTagged(tag: string, msg: string, end: string)
    ensures Untagged(tag, end, Tagged(tag, msg, end)) == msg
  {
    var p := Tagged(tag, msg, end);
    assert p == tag + msg + end;
    assert p[|tag|..|p| - |end|] == msg;
  }

  /** The registry after adding `s` under `name`: a name already registered keeps its stream. */
  function Registered(loggers: map<string, LogStream>, name: string, s: LogStream): (r: map<string, LogStream>)
    ensures name in r && r.Keys == loggers.Keys + {name}
    ensures name in loggers ==> r[name] == loggers[name]
    ensures name !in loggers ==> r[name] == s
    ensures forall n | n in loggers :: r[n] == loggers[n]
  {
    if name in loggers then loggers else loggers[name := s]
  }

  /** Registering a name a second time changes nothing, whatever stream is offered. */
  lemma RegisterTwice(loggers: map<string, LogStream>, name: string, s: LogStream, t: LogStream)
    ensures Registered(Registered(loggers, name, s), name, t) == Registered(loggers, name, s)
  {
  }

  class GoQALog {
    /** The messages queued on the input channel, oldest first. */
    var outbox: seq<LogArg>
    var loggers: map<string, LogStream>
    var debugMode: bool
    var initialized: bool
    var faulted: bool
    var END: string

    /** Go's zero value: not initialised, no stream, no line ending. */
    constructor ()
      ensures !initialized && !faulted && !debugMode
      ensures outbox == [] && loggers == map[] && END == ""
    {
      outbox := [];
      loggers := map[];
      debugMode := false;
      initialized := false;
      faulted := false;
      END := "";
    }

    /**
     * `Init`: the first call empties the registry and the queue, clears debug
     * mode, picks the line ending and marks the logger initialised; a later
     * call returns at once and changes nothing.
     */
    method Init(goos: string)
      modifies this
      ensures initialized && faulted == old(faulted)
      ensures old(initialized) ==> outbox == old(outbox) && loggers == old(loggers)
                                   && debugMode == old(debugMode) && END == old(END)
      ensures !old(initialized) ==> outbox == [] && loggers == map[] && !debugMode && END == LineEnd(goos)
    {
      if initialized {
        return;
      }
      loggers := map[];
      outbox := [];
      debugMode := false;
      END := LineEnd(goos);
      initialized := true;
    }

    /**
     * `ready`: true when the logger is initialised, initialising it first
     * unless an earlier initialisation faulted.
     */
    method Ready(goos: string) returns (ok: bool)
      modifies this
      ensures ok <==> old(initialized) || !old(faulted)
      ensures ok <==> initialized
      ensures faulted == old(faulted)
      ensures old(initialized) || !ok ==> outbox == old(outbox) && loggers == old(loggers)
                                          && debugMode == old(debugMode) && END == old(END)
      ensures !old(initialized) && ok ==> outbox == [] && loggers == map[] && !debugMode && END == LineEnd(goos)
    {
      if initialized {
        return true;
      }
      if faulted {
        return false;
      }
      Init(goos);
      return initialized;
    }

    /**
     * `Add`: registers a stream under a new name, capturing the current
     * debug mode; a name already registered keeps its stream.
     */
    method Add(name: string, level: bv64, goos: string)
      modifies this
      ensures initialized <==> old(initialized) || !old(faulted)
      ensures initialized ==> name in loggers
      ensures initialized ==> loggers == Registered(if old(initialized) then old(loggers) else map[], name, LogStream(level, debugMode))
      ensures outbox == (if old(initialized) || !initialized then old(outbox) else [])
      ensures debugMode == (if old(initialized) || !initialized then old(debugMode) else false)
      ensures !initialized ==> loggers == old(loggers) && END == old(END)
      ensures old(initialized) ==> END == old(END)
      ensures !old(initialized) && initialized ==> END == LineEnd(goos)
    {
      var ok := Ready(goos);
      if !ok {
        return;
      }
      if name !in loggers {
        loggers := loggers[name := LogStream(level, debugMode)];
      }
    }

    /**
     * `Printf`: queues one message. Sending on the channel of a logger that
     * was never initialised blocks for ever, so the logger must be initialised.
     */
    method Printf(level: bv64, pattern: string)
      requires initialized
      modifies this
      ensures outbox == old(outbox) + [LogArg(level, pattern)]
      ensures loggers == old(loggers) && debugMode == old(debugMode) && END == old(END)
      ensures initialized && faulted == old(faulted)
    {
      outbox := outbox + [LogArg(level, pattern)];
    }

    /** `SetDebug`: changes the mode for streams added later; registered streams keep theirs. */
    method SetDebug(mode: bool, goos: string)
      modifies this
      ensures initialized <==> old(initialized) || !old(faulted)
      ensures initialized ==> debugMode == mode
      ensures loggers == (if old(initialized) || !initialized then old(loggers) else map[])
      ensures outbox == (if old(initialized) || !initialized then old(outbox) else [])
      ensures !initialized ==> END == old(END) && debugMode == old(debugMode)
      ensures old(initialized) ==> END == old(END)
      ensures !old(initialized) && initialized ==> END == LineEnd(goos)
    {
      var ok := Ready(goos);
      if ok {
        debugMode := mode;
      }
    }

    /** The queue a helper call starts from: the old queue, or an empty one if the call initialised the logger. */
    ghost function QueueBefore(wasInitialized: bool, oldOutbox: seq<LogArg>): seq<LogArg> {
      if wasInitialized then oldOutbox else []
    }

    /** Queues one tagged message if the logger is (or becomes) ready; otherwise does nothing. */
    method Emit(level: bv64, tag: string, msg: string, goos: string)
      modifies this
      ensures initialized <==> old(initialized) || !old(faulted)
      ensures initialized ==> outbox == QueueBefore(old(initialized), old(outbox)) + [LogArg(level, Tagged(tag, msg, END))]
      ensures !initialized ==> outbox == old(outbox)
      ensures initialized ==> loggers == (if old(initialized) then old(loggers) else map[])
      ensures old(initialized) ==> END == old(END) && debugMode == old(debugMode)
      ensures !old(initialized) && initialized ==> END == LineEnd(goos) && !debugMode
      ensures !initialized ==> loggers == old(loggers) && END == old(END) && debugMode == old(debugMode)
    {
      var ok := Ready(goos);
      if ok {
        Printf(level, Tagged(tag, msg, END));
      }
    }

    /** `LogError`: an `ERROR::` message at error level. */
    method LogError(errMsg: string, goos: string)
      modifies this
      ensures initialized <==> old(initialized) || !old(faulted)
      ensures initialized ==> outbox == QueueBefore(old(initialized), old(outbox)) + [LogArg(LOG_ERROR, Tagged("ERROR::", errMsg, END))]
      ensures !initialized ==> outbox == old(outbox)
      ensures initialized ==> loggers == (if old(initialized) then old(loggers) else map[])
      ensures !initialized ==> loggers == old(loggers) && END == old(END) && debugMode == old(debugMode)
      ensures old(initialized) ==> END == old(END) && debugMode == old(debugMode)
      ensures !old(initialized) && initialized ==> END == LineEnd(goos) && !debugMode
    {
      Emit(LOG_ERROR, "ERROR::", errMsg, goos);
    }

    /** `LogDebug`: a `DEBUG::` message at debug level, and only in debug mode. */
    method LogDebug(debugMsg: string, goos: string)
      modifies this
      ensures initialized <==> old(initialized) || !old(faulted)
      ensures initialized && debugMode ==>
                outbox == QueueBefore(old(initialized), old(outbox)) + [LogArg(LOG_DEBUG, Tagged("DEBUG::", debugMsg, END))]
      ensures !(initialized && debugMode) ==> outbox == QueueBefore(old(initialized) || !initialized, old(outbox))
      ensures initialized ==> loggers == (if old(initialized) then old(loggers) else map[])
      ensures !initialized ==> loggers == old(loggers) && END == old(END) && debugMode == old(debugMode)
      ensures old(initialized) ==> END == old(END) && debugMode == old(debugMode)
      ensures !old(initialized) && initialized ==> END == LineEnd(goos) && !debugMode
    {
      var ok := Ready(goos);
      if ok {
        if debugMode {
          Printf(LOG_DEBUG, Tagged("DEBUG::", debugMsg, END));
        }
      }
    }

    /** `LogWarning`: a warning-level message that carries the `ERROR::` tag. */
    method LogWarning(warnMsg: string, goos: string)
      modifies this
      ensures initialized <==> old(initialized) || !old(faulted)
      ensures initialized ==> outbox == QueueBefore(old(initialized), old(outbox)) + [LogArg(LOG_WARNING, Tagged("ERROR::", warnMsg, END))]
      ensures !initialized ==> outbox == old(outbox)
      ensures initialized ==> loggers == (if old(initialized) then old(loggers) else map[])
      ensures !initialized ==> loggers == old(loggers) && END == old(END) && debugMode == old(debugMode)
      ensures old(initialized) ==> END == old(END) && debugMode == old(debugMode)
      ensures !old(initialized) && initialized ==> END == LineEnd(goos) && !debugMode
    {
      Emit(LOG_WARNING, "ERROR::", warnMsg, goos);
    }

    /** `LogPass`: a `PASS::` message at pass level. */
    method LogPass(passMsg: string, goos: string)
      modifies this
      ensures initialized <==> old(initialized) || !old(faulted)
      ensures initialized ==> outbox == QueueBefore(old(initialized), old(outbox)) + [LogArg(LOG_PASS, Tagged("PASS::", passMsg, END))]
      ensures !initialized ==> outbox == old(outbox)
      ensures initialized ==> loggers == (if old(initialized) then old(loggers) else map[])
      ensures !initialized ==> loggers == old(loggers) && END == old(END) && debugMode == old(debugMode)
      ensures old(initialized) ==> END == old(END) && debugMode == old(debugMode)
      ensures !old(initialized) && initialized ==> END == LineEnd(goos) && !debugMode
    {
      Emit(LOG_PASS, "PASS::", passMsg, goos);
    }

    /** `LogFail`: a `FAIL::` message at fail level. */
    method LogFail(failMsg: string, goos: string)
      modifies this
      ensures initialized <==> old(initialized) || !old(faulted)
      ensures initialized ==> outbox == QueueBefore(old(initialized), old(outbox)) + [LogArg(LOG_FAIL, Tagged("FAIL::", failMsg, END))]
      ensures !initialized ==> outbox == old(outbox)
      ensures initialized ==> loggers == (if old(initialized) then old(loggers) else map[])
      ensures !initialized ==> loggers == old(loggers) && END == old(END) && debugMode == old(debugMode)
      ensures old(initialized) ==> END == old(END) && debugMode == old(debugMode)
      ensures !old(initialized) && initialized ==> END == LineEnd(goos) && !debugMode
    {
      Emit(LOG_FAIL, "FAIL::", failMsg, goos);
    }

    /** `LogMessage`: a `MSG::` message at message level. */
    method LogMessage(msg: string, goos: string)
      modifies this
      ensures initialized <==> old(initialized) || !old(faulted)
      ensures initialized ==> outbox == QueueBefore(old(initialized), old(outbox)) + [LogArg(LOG_MESSAGE, Tagged("MSG::", msg, END))]
      ensures !initialized ==> outbox == old(outbox)
      ensures initialized ==> loggers == (if old(initialized) then old(loggers) else map[])
      ensures !initialized ==> loggers == old(loggers) && END == old(END) && debugMode == old(debugMode)
      ensures old(initialized) ==> END == old(END) && debugMode == old(debugMode)
      ensures !old(initialized) && initialized ==> END == LineEnd(goos) && !debugMode
    {
      Emit(LOG_MESSAGE, "MSG::", msg, goos);
    }
  }
}
