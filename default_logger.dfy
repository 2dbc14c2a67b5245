/**
 * The build tool's default build logger: it turns build events (build
 * finished, target started, message logged) into lines of text on an output
 * stream and an error stream.
 *
 * Each PrintStream is a sequence of the strings passed to its println, one
 * element per call; the protected log hook, which the class leaves empty for
 * subclasses, is a third sequence of the strings it is given. The wall clock
 * is a parameter of the members that read it.
 */
module Logging {
  import opened Wrappers

  /** Project.MSG_ERR, MSG_WARN, MSG_INFO, MSG_VERBOSE and MSG_DEBUG. */
  datatype Levels = Levels(err: int, warn: int, info: int, verbose: int, debug: int)

  /** The width of the column that holds a task's label (LEFT_COLUMN_SIZE). */
  const LEFT_COLUMN_SIZE: int := 12

  /**
   * The exception a failed build carries: whether it is a BuildException,
   * what StringUtils.getStackTrace makes of it and what its toString returns.
   */
  datatype Throwable = Throwable(isBuildException: bool, stackTrace: string, text: string)

  predicate StartsWith(s: string, prefix: string) {
    |prefix| <= |s| && s[..|prefix|] == prefix
  }

  predicate EndsWith(s: string, suffix: string) {
    |suffix| <= |s| && s[|s| - |suffix|..] == suffix
  }

  // ---------------------------------------------------------------------
  // Java long arithmetic and Long.toString

  /** Java's long division, which truncates toward zero. */
  function JavaDiv(a: int, b: int): int
    requires b > 0
  {
    if a >= 0 then a / b else -((-a) / b)
  }

  /** Java's long remainder, which takes the sign of the dividend. */
  function JavaRem(a: int, b: int): int
    requires b > 0
  {
    a - b * JavaDiv(a, b)
  }

  function DigitChar(d: int): char
    requires 0 <= d < 10
  {
    ('0' as int + d) as char
  }

  predicate IsDigit(c: char) {
    '0' <= c <= '9'
  }

  /** The decimal digits of n, without leading zeros. */
  function NatToString(n: nat): (s: string)
    ensures |s| > 0 && forall i :: 0 <= i < |s| ==> IsDigit(s[i])
  {
    if n < 10 then [DigitChar(n)] else NatToString(n / 10) + [DigitChar(n % 10)]
  }

  /** Long.toString: a minus sign for negative values, then the decimal digits. */
  function LongToString(n: int): string {
    if n < 0 then "-" + NatToString(-n) else NatToString(n)
  }

  /** The value of a decimal digit. */
  function DigitValue(c: char): nat
    requires IsDigit(c)
  {
    c as int - '0' as int
  }

  /** The value of a string of decimal digits. */
  function ParseDigits(s: string): nat
    requires forall i :: 0 <= i < |s| ==> IsDigit(s[i])
  {
    if s == [] then 0 else 10 * ParseDigits(s[..|s| - 1]) + DigitValue(s[|s| - 1])
  }

  /** Reading the digits back gives the number: Long.toString loses nothing. */
  lemma {:induction false} NatToStringRoundTrip(n: nat)
    ensures ParseDigits(NatToString(n)) == n
  {
    var s := NatToString(n);
    if n >= 10 {
      NatToStringRoundTrip(n / 10);
      assert s[..|s| - 1] == NatToString(n / 10);
    }
  }

  // ---------------------------------------------------------------------
  // formatTime

  /** A count and its unit, with the plural "s" unless singular. */
  function Quantity(n: int, unit: string, singular: bool): string {
    LongToString(n) + unit + (if singular then "" else "s")
  }

  /**
   * formatTime: a duration in milliseconds as whole minutes and seconds. The
   * minutes part, when there is one, is followed by a space.
   */
  function FormatTime(millis: int): string {
    var seconds := JavaDiv(millis, 1000);
    var minutes := JavaDiv(seconds, 60);
    if minutes > 0 then
      Quantity(minutes, " minute", minutes == 1) + " "
      + Quantity(JavaRem(seconds, 60), " second", JavaRem(seconds, 60) == 1)
    else
      Quantity(seconds, " second", JavaRem(seconds, 60) == 1)
  }

  /** Under a minute: the whole seconds, plural unless there is exactly one. */
  lemma FormatTimeUnderAMinute(millis: int)
    requires 0 <= millis < 60000
    ensures var s := millis / 1000;
      0 <= s < 60 && FormatTime(millis) == Quantity(s, " second", s == 1)
  {
  }

  /**
   * From one minute on: the whole minutes and then the remaining whole
   * seconds, each plural unless it is exactly one; the seconds are in 0..59.
   */
  lemma FormatTimeWithMinutes(millis: int)
    requires millis >= 60000
    ensures var m, s := millis / 60000, millis / 1000 % 60;
      && m >= 1 && 0 <= s < 60 && m * 60 + s == millis / 1000
      && FormatTime(millis) == Quantity(m, " minute", m == 1) + " " + Quantity(s, " second", s == 1)
  {
    MinutesOfMillis(millis);
  }

  /** Whole seconds, then whole minutes of those, is whole minutes. */
  lemma MinutesOfMillis(millis: nat)
    ensures millis / 1000 / 60 == millis / 60000
  {
    var q, r := millis / 60000, millis % 60000;
    assert millis == 60000 * q + r && 0 <= r < 60000;
    var s := millis / 1000;
    assert 1000 * (60 * q + r / 1000) <= millis < 1000 * (60 * q + r / 1000 + 1);
    assert s == 60 * q + r / 1000;
    assert 0 <= r / 1000 < 60;
  }

  /** A negative duration (a clock set back) is the truncated seconds, always plural. */
  lemma FormatTimeNegative(millis: int)
    requires millis < 0
    ensures FormatTime(millis) == Quantity(-((-millis) / 1000), " second", false)
  {
    var seconds := JavaDiv(millis, 1000);
    assert seconds <= 0;
    assert JavaDiv(seconds, 60) <= 0;
    assert JavaRem(seconds, 60) <= 0;
  }

  // ---------------------------------------------------------------------
  // messageLogged

  /** n spaces. */
  function Spaces(n: nat): (s: string)
    ensures |s| == n && forall i :: 0 <= i < n ==> s[i] == ' '
  {
    if n == 0 then "" else Spaces(n - 1) + " "
  }

  /** The label printed before a task's messages. */
  function TaskLabel(name: string): string {
    "[" + name + "] "
  }

  /** The UTF-16 code units of one character: two for a character outside the Basic Multilingual Plane. */
  function CodeUnits(c: char): nat {
    if c as int < 0x1_0000 then 1 else 2
  }

  /** String.length(): the number of UTF-16 code units of the string. */
  function JavaLength(s: string): nat {
    if s == [] then 0 else JavaLength(s[..|s| - 1]) + CodeUnits(s[|s| - 1])
  }

  /** The Java length of a concatenation is the sum of the lengths. */
  lemma {:induction false} JavaLengthConcat(a: string, b: string)
    ensures JavaLength(a + b) == JavaLength(a) + JavaLength(b)
  {
    if b != [] {
      var b' := b[..|b| - 1];
      assert (a + b)[..|a + b| - 1] == a + b';
      assert (a + b)[|a + b| - 1] == b[|b| - 1];
      JavaLengthConcat(a, b');
    } else {
      assert a + b == a;
    }
  }

  /**
   * A string's Java length lies between its number of characters and twice
   * that, and equals it when no character lies outside the Basic
   * Multilingual Plane.
   */
  lemma {:induction false} JavaLengthBounds(s: string)
    ensures |s| <= JavaLength(s) <= 2 * |s|
    ensures (forall i :: 0 <= i < |s| ==> s[i] as int < 0x1_0000) ==> JavaLength(s) == |s|
  {
    if s != [] {
      JavaLengthBounds(s[..|s| - 1]);
    }
  }

  /** The spaces that right-align a label in the task column, counted in Java length; none once it is full. */
  function Padding(tag: string): nat {
    if JavaLength(tag) < LEFT_COLUMN_SIZE then LEFT_COLUMN_SIZE - JavaLength(tag) else 0
  }

  /** The text messageLogged prints for a message of the given task. */
  function MessageText(task: Option<string>, emacsMode: bool, message: string): string {
    if task.Some? && !emacsMode then
      Spaces(Padding(TaskLabel(task.value))) + TaskLabel(task.value) + message
    else
      message
  }

  /**
   * Outside emacs mode, a task's message is right-aligned in a column whose
   * Java length is max(12, length(name) + 3): spaces, then "[name] ", then
   * the message. A name with no character outside the Basic Multilingual
   * Plane has a column of max(12, |name| + 3) characters.
   */
  lemma LabelledMessageLayout(name: string, message: string)
    ensures var r := MessageText(Some(name), false, message);
      var units := JavaLength(name) + 3;
      var pad := if units < LEFT_COLUMN_SIZE then LEFT_COLUMN_SIZE - units else 0;
      var prefix := pad + |name| + 3;
      && |r| == prefix + |message|
      && (forall i :: 0 <= i < pad ==> r[i] == ' ')
      && r[pad..prefix] == "[" + name + "] "
      && r[prefix..] == message
      && JavaLength(r[..prefix]) == (if units < LEFT_COLUMN_SIZE then LEFT_COLUMN_SIZE else units)
  {
    var r := MessageText(Some(name), false, message);
    var tag := TaskLabel(name);
    JavaLengthConcat("[", name);
    JavaLengthConcat("[" + name, "] ");
    assert JavaLength("] ") == 2 by {
      assert "] "[..1] == "]";
    }
    assert JavaLength(tag) == JavaLength(name) + 3;
    var pad := Padding(tag);
    assert r == Spaces(pad) + tag + message;
    assert r[pad..pad + |tag|] == tag;
    assert r[pad + |tag|..] == message;
    assert r[..pad + |tag|] == Spaces(pad) + tag;
    JavaLengthConcat(Spaces(pad), tag);
    JavaLengthBounds(Spaces(pad));
  }

  /** In emacs mode, or with no task, the message is printed as it is. */
  lemma UnlabelledMessage(task: Option<string>, emacsMode: bool, message: string)
    requires emacsMode || task.None?
    ensures MessageText(task, emacsMode, message) == message
  {
  }

  /** The message text messageLogged builds in its StringBuffer, padding loop included. */
  method ComposeMessage(task: Option<string>, emacsMode: bool, message: string) returns (msg: string)
    ensures msg == MessageText(task, emacsMode, message)
  {
    var buffer := "";
    if task.Some? {
      var name := task.value;
      if !emacsMode {
        var tag := "[" + name + "] ";
        var i := 0;
        while i < LEFT_COLUMN_SIZE - JavaLength(tag)
          invariant 0 <= i <= Padding(tag)
          invariant buffer == Spaces(i)
        {
          buffer := buffer + " ";
          i := i + 1;
        }
        buffer := buffer + tag;
      }
    }
    msg := buffer + message;
  }

  // ---------------------------------------------------------------------
  // buildFinished

  /** What follows "BUILD FAILED": the stack trace, or the exception's toString and a line break. */
  function FailureDetail(error: Throwable, verbose: bool, lineSep: string): string {
    if verbose || !error.isBuildException then error.stackTrace else error.text + lineSep
  }

  /** The outcome part of the summary: a line break, then success, or failure and its detail. */
  function Outcome(error: Option<Throwable>, verbose: bool, lineSep: string): string {
    match error
    case None => lineSep + "BUILD SUCCESSFUL"
    case Some(e) => lineSep + "BUILD FAILED" + lineSep + FailureDetail(e, verbose, lineSep)
  }

  /** The summary buildFinished prints, given the formatted duration of the build. */
  function FinishedSummary(error: Option<Throwable>, verbose: bool, lineSep: string, totalTime: string): string {
    Outcome(error, verbose, lineSep) + (lineSep + "Total time: " + totalTime)
  }

  lemma StartsWithConcat(a: string, b: string)
    ensures StartsWith(a + b, a)
  {
    assert (a + b)[..|a|] == a;
  }

  /** No string starts with two prefixes that differ at a position both have. */
  lemma PrefixesDiffer(s: string, p: string, q: string, i: nat)
    requires i < |p| && i < |q| && p[i] != q[i]
    ensures !(StartsWith(s, p) && StartsWith(s, q))
  {
  }

  /** The two headlines differ at the seventh character after the line break. */
  lemma HeadlinesDiffer(lineSep: string)
    ensures var n := |lineSep|;
      && (lineSep + "BUILD SUCCESSFUL")[n + 6] == 'S'
      && (lineSep + "BUILD FAILED" + lineSep)[n + 6] == 'F'
  {
  }

  /** The summary starts with the headline of its own outcome. */
  lemma SummaryStartsWithHeadline(error: Option<Throwable>, verbose: bool, lineSep: string, totalTime: string)
    ensures var r := FinishedSummary(error, verbose, lineSep, totalTime);
      && (error.None? ==> StartsWith(r, lineSep + "BUILD SUCCESSFUL"))
      && (error.Some? ==> StartsWith(r, lineSep + "BUILD FAILED" + lineSep))
  {
    var tail := lineSep + "Total time: " + totalTime;
    match error {
      case None =>
        StartsWithConcat(lineSep + "BUILD SUCCESSFUL", tail);
      case Some(e) =>
        var failure := lineSep + "BUILD FAILED" + lineSep;
        var detail := FailureDetail(e, verbose, lineSep);
        assert FinishedSummary(error, verbose, lineSep, totalTime) == failure + (detail + tail);
        StartsWithConcat(failure, detail + tail);
    }
  }

  /**
   * The summary starts with "BUILD SUCCESSFUL" exactly when the build had no
   * error, and with "BUILD FAILED" and a line break exactly when it had one.
   */
  lemma SummaryReportsOutcome(error: Option<Throwable>, verbose: bool, lineSep: string, totalTime: string)
    ensures var r := FinishedSummary(error, verbose, lineSep, totalTime);
      && (StartsWith(r, lineSep + "BUILD SUCCESSFUL") <==> error.None?)
      && (StartsWith(r, lineSep + "BUILD FAILED" + lineSep) <==> error.Some?)
  {
    var r := FinishedSummary(error, verbose, lineSep, totalTime);
    HeadlinesDiffer(lineSep);
    PrefixesDiffer(r, lineSep + "BUILD SUCCESSFUL", lineSep + "BUILD FAILED" + lineSep, |lineSep| + 6);
    SummaryStartsWithHeadline(error, verbose, lineSep, totalTime);
  }

  /** Every summary ends with the total time of the build. */
  lemma SummaryEndsWithTotalTime(error: Option<Throwable>, verbose: bool, lineSep: string, totalTime: string)
    ensures EndsWith(FinishedSummary(error, verbose, lineSep, totalTime), lineSep + "Total time: " + totalTime)
  {
    var tail := lineSep + "Total time: " + totalTime;
    var r := FinishedSummary(error, verbose, lineSep, totalTime);
    assert r[|r| - |tail|..] == tail;
  }

  /**
   * After "BUILD FAILED" and a line break, a failed build's summary shows the
   * stack trace when the logger is verbose or the error is not a
   * BuildException, and the exception's toString and a line break otherwise.
   */
  lemma SummaryFailureDetail(e: Throwable, verbose: bool, lineSep: string, totalTime: string)
    ensures var r := FinishedSummary(Some(e), verbose, lineSep, totalTime);
      var h := 2 * |lineSep| + 12;
      var d := if verbose || !e.isBuildException then e.stackTrace else e.text + lineSep;
      h + |d| <= |r| && r[h..h + |d|] == d
  {
    var head := lineSep + "BUILD FAILED" + lineSep;
    var d := FailureDetail(e, verbose, lineSep);
    var r := FinishedSummary(Some(e), verbose, lineSep, totalTime);
    assert r == head + d + (lineSep + "Total time: " + totalTime);
    assert r[|head|..|head| + |d|] == d;
  }

  /** The summary buildFinished builds in its StringBuffer, one append at a time. */
  method ComposeSummary(error: Option<Throwable>, verbose: bool, lineSep: string, totalTime: string)
    returns (msg: string)
    ensures msg == FinishedSummary(error, verbose, lineSep, totalTime)
  {
    var message := "";
    if error.None? {
      message := message + lineSep;
      assert message == lineSep;
      message := message + "BUILD SUCCESSFUL";
    } else {
      var e := error.value;
      message := message + lineSep;
      assert message == lineSep;
      message := message + "BUILD FAILED";
      message := message + lineSep;
      ghost var header := message;
      if verbose || !e.isBuildException {
        message := message + e.stackTrace;
      } else {
        if e.isBuildException {
          message := message + e.text + lineSep;
          assert message == header + (e.text + lineSep);
        } else {
          // the getMessage branch: an error reaching here is a BuildException
          assert false;
        }
      }
      assert message == header + FailureDetail(e, verbose, lineSep);
    }
    assert message == Outcome(error, verbose, lineSep);
    message := message + lineSep;
    message := message + "Total time: " + totalTime;
    assert message == Outcome(error, verbose, lineSep) + (lineSep + "Total time: " + totalTime);
    msg := message;
  }

  /** DefaultLogger: the logger's settings and the three streams it writes. */
  class DefaultLogger {
    const levels: Levels
    /** StringUtils.LINE_SEP, the platform's line separator. */
    const lineSep: string
    var out: seq<string>
    var err: seq<string>
    var logged: seq<string>
    var msgOutputLevel: int
    var emacsMode: bool
    var startTime: int

    /** A new logger reports errors only, not in emacs mode, and takes the current time as its start. */
    constructor (levels: Levels, lineSep: string, now: int)
      ensures this.levels == levels && this.lineSep == lineSep
      ensures msgOutputLevel == levels.err && !emacsMode && startTime == now
      ensures out == [] && err == [] && logged == []
    {
      this.levels := levels;
      this.lineSep := lineSep;
      out, err, logged := [], [], [];
      msgOutputLevel := levels.err;
      emacsMode := false;
      startTime := now;
    }

    /** setMessageOutputLevel: messages of this priority or lower are printed from now on. */
    method SetMessageOutputLevel(level: int)
      modifies this`msgOutputLevel
      ensures msgOutputLevel == level
    {
      msgOutputLevel := level;
    }

    /** setEmacsMode: whether task labels are left out. */
    method SetEmacsMode(emacsMode: bool)
      modifies this`emacsMode
      ensures this.emacsMode == emacsMode
    {
      this.emacsMode := emacsMode;
    }

    /** buildStarted: records the time the build started. */
    method BuildStarted(now: int)
      modifies this`startTime
      ensures startTime == now
    {
      startTime := now;
    }

    /** log: the hook that receives every printed line; here it keeps them. */
    method Log(message: string)
      modifies this`logged
      ensures logged == old(logged) + [message]
    {
      logged := logged + [message];
    }

    /**
     * buildFinished: prints the summary to out when the build succeeded and
     * to err when it failed, and passes it to log.
     */
    method BuildFinished(error: Option<Throwable>, now: int)
      modifies this`out, this`err, this`logged
      ensures var msg := FinishedSummary(error, levels.verbose <= msgOutputLevel, lineSep, FormatTime(now - startTime));
        && (error.None? ==> out == old(out) + [msg] && err == old(err))
        && (error.Some? ==> err == old(err) + [msg] && out == old(out))
        && logged == old(logged) + [msg]
    {
      var elapsed := now - startTime;
      var totalTime := FormatTime(elapsed);
      var msg := ComposeSummary(error, levels.verbose <= msgOutputLevel, lineSep, totalTime);
      if error.None? {
        out := out + [msg];
      } else {
        err := err + [msg];
      }
      Log(msg);
      assert now - startTime == elapsed;
    }

    /** targetStarted: at INFO level or above, prints a line break and "<name>:" to out and log. */
    method TargetStarted(targetName: string)
      modifies this`out, this`logged
      ensures var msg := lineSep + targetName + ":";
        && (levels.info <= msgOutputLevel ==> out == old(out) + [msg] && logged == old(logged) + [msg])
        && (levels.info > msgOutputLevel ==> out == old(out) && logged == old(logged))
    {
      if levels.info <= msgOutputLevel {
        var msg := lineSep + targetName + ":";
        out := out + [msg];
        Log(msg);
      }
    }

    /**
     * messageLogged: a message of priority at most the output level is
     * printed, to err when its priority is MSG_ERR and to out otherwise, and
     * passed to log; any other message is dropped.
     */
    method MessageLogged(priority: int, task: Option<string>, message: string)
      modifies this`out, this`err, this`logged
      ensures var msg := MessageText(task, emacsMode, message);
        && (priority <= msgOutputLevel && priority != levels.err ==>
              out == old(out) + [msg] && err == old(err) && logged == old(logged) + [msg])
        && (priority <= msgOutputLevel && priority == levels.err ==>
              err == old(err) + [msg] && out == old(out) && logged == old(logged) + [msg])
        && (priority > msgOutputLevel ==> out == old(out) && err == old(err) && logged == old(logged))
    {
      if priority <= msgOutputLevel {
        var msg := ComposeMessage(task, emacsMode, message);
        if priority != levels.err {
          out := out + [msg];
        } else {
          err := err + [msg];
        }
        Log(msg);
      }
    }
  }
}
