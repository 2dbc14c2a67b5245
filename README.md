# Ant's Jakarta-ORO regexp adapter and default build logger, in Dafny

This project models two classes of the Apache Ant build tool.

- `JakartaOroMatcher` (module `OroRegexp`, `oro_matcher.dfy`) is Ant's
  `RegexpMatcher` on top of the Jakarta-ORO library. It stores a pattern
  string. On every `matches` or `getGroups` call it turns Ant's `MATCH_*`
  option mask into Perl5Compiler flags and compiles the pattern afresh; any
  compile failure becomes a `BuildException`. It then asks the library's
  `Perl5Matcher` whether the pattern occurs in the input. `getGroups` reads
  back the match that the matcher remembered and copies its groups, in order,
  into a vector.
- `DefaultLogger` (module `Logging`, `default_logger.dfy`) is the listener
  that prints build events. It prints a target's name when the target
  starts. It filters logged messages by priority, prefixes each with the
  task's name right-aligned in a 12-column field (left out in emacs mode),
  and routes errors to `err` and everything else to `out`. At the end it
  prints "BUILD SUCCESSFUL" or "BUILD FAILED" with the error's detail, and
  the build's duration as minutes and seconds.

`wrappers.dfy` holds `Option` (a Java reference that may be null) and
`Result` (a call that returns or throws).

How the Java is represented:

- The ORO library cannot be seen, so it is two uninterpreted total functions.
  `Compiler` maps a pattern (possibly null) and compiler flags to a compiled
  pattern or an exception. `Searcher` maps an input and a compiled pattern to
  a match or to no match.
- `Perl5Matcher` is a class whose `lastMatch` field carries the match from
  `contains` to `getMatch`. `JakartaOroMatcher` holds one `Perl5Matcher` and
  a mutable `pattern` field.
- A Java `int` bit mask is the set of positions of its 1-bits (`Bits`).
  Bitwise `&` is set intersection, `|` is union, and `hasFlag` is a non-empty
  intersection. The `MATCH_*` flags and the compiler's `*_MASK` constants are
  defined outside the modelled files, so they are parameters:
  - `MatchFlags` gives the bit position of each `MATCH_*` flag;
  - `CompilerMasks` gives `DEFAULT_MASK` and the position of each modifier's
    bit;
  - `CompilerMasks.Valid` states that the three modifier bits are distinct
    and outside `DEFAULT_MASK`.

  `MATCH_DEFAULT` is the empty mask.
- `Project.MSG_*` are the parameters in `Levels`. No ordering between them is
  assumed, because none is needed.
- `PrintStream`s are sequences of strings, one element per `println`. The
  protected `log` hook is a third such sequence.
- `System.currentTimeMillis()` is a parameter (`now`). `long` arithmetic is
  unbounded, and Java's truncating `/` and `%` are written out (`JavaDiv`,
  `JavaRem`).
- The text of `StringUtils.getStackTrace(e)` and of `e.toString()` are
  fields of `Throwable`.

Behaviour of the code that the model keeps:

- This class keeps no compiled-pattern cache and chooses no engine. Every
  `matches` and `getGroups` call recompiles the current pattern.
- The option translation is three conditionals.
- A matcher with no pattern set passes `null` to the compiler. Whatever the
  compiler throws becomes a `BuildException`; no other error is raised for a
  missing pattern.
- A group that took no part in the match is copied as the library reports it
  (null, here `None`).
- A task label's width is its Java length, counted in UTF-16 code units
  (`JavaLength`). A character outside the Basic Multilingual Plane takes two
  units, so its label gets one space less.

## Model

| member | source | states |
|---|---|---|
| `OroRegexp.JakartaOroMatcher.constructor` | src/main/org/apache/tools/ant/util/regexp/JakartaOroMatcher.java:75-79 | a new matcher has no pattern and its own new Perl5Matcher with no remembered match |
| `OroRegexp.JakartaOroMatcher.SetPattern` | src/main/org/apache/tools/ant/util/regexp/JakartaOroMatcher.java:84-86 | the pattern becomes exactly the given string, null included, with no validation; nothing else changes |
| `OroRegexp.JakartaOroMatcher.GetPattern` | src/main/org/apache/tools/ant/util/regexp/JakartaOroMatcher.java:91-93 | returns the string last stored by setPattern, changing nothing |
| `OroRegexp.JakartaOroMatcher.GetCompilerOptions` | src/main/org/apache/tools/ant/util/regexp/JakartaOroMatcher.java:161-176 | the flags built up step by step equal the translation of the option mask |
| `OroRegexp.CompilerOptionsWithoutFlags` | src/main/org/apache/tools/ant/util/regexp/JakartaOroMatcher.java:161-175 | with none of the three MATCH_* flags in the options, the compiler gets exactly DEFAULT_MASK |
| `OroRegexp.CompilerOptionsOfDefault` | src/main/org/apache/tools/ant/util/regexp/JakartaOroMatcher.java:161-175 | MATCH_DEFAULT is translated to DEFAULT_MASK |
| `OroRegexp.CompilerOptionsTranslation` | src/main/org/apache/tools/ant/util/regexp/JakartaOroMatcher.java:165-173 | each of the case-insensitive, multiline and singleline compiler bits is set if and only if its MATCH_* flag is present; every other bit of the result is DEFAULT_MASK's |
| `OroRegexp.CompilerOptionsMonotone` | src/main/org/apache/tools/ant/util/regexp/JakartaOroMatcher.java:165-173 | adding MATCH_* bits to the options never removes a compiler bit |
| `OroRegexp.JakartaOroMatcher.GetCompiledPattern` | src/main/org/apache/tools/ant/util/regexp/JakartaOroMatcher.java:98-111 | compiles the current pattern with the translated flags; fails exactly when the compiler throws, with a BuildException whose cause is the compiler's exception |
| `OroRegexp.CompileFailuresAreBuildExceptions` | src/main/org/apache/tools/ant/util/regexp/JakartaOroMatcher.java:101-110 | every compile failure, and only a compile failure, surfaces as a BuildException wrapping it; a successful compile is returned unchanged |
| `OroRegexp.Perl5Matcher.constructor` | src/main/org/apache/tools/ant/util/regexp/JakartaOroMatcher.java:77 | the matcher starts with no remembered match |
| `OroRegexp.Perl5Matcher.Contains` | src/main/org/apache/tools/ant/util/regexp/JakartaOroMatcher.java:127 | the matcher remembers the search's outcome and answers whether it found a match |
| `OroRegexp.Perl5Matcher.GetMatch` | src/main/org/apache/tools/ant/util/regexp/JakartaOroMatcher.java:153 | returns the match remembered from the last contains call, changing nothing |
| `OroRegexp.JakartaOroMatcher.Matches` | src/main/org/apache/tools/ant/util/regexp/JakartaOroMatcher.java:123-128 | compiles the current pattern, then reports whether it occurs in the input; a compile failure is thrown with the matcher untouched, and otherwise the matcher remembers this search's match |
| `OroRegexp.JakartaOroMatcher.MatchesDefault` | src/main/org/apache/tools/ant/util/regexp/JakartaOroMatcher.java:116-118 | matches(argument) gives what matches(argument, MATCH_DEFAULT) gives and leaves the matcher in the same state: holding this search's match, or untouched after a compile failure |
| `OroRegexp.JakartaOroMatcher.GetGroups` | src/main/org/apache/tools/ant/util/regexp/JakartaOroMatcher.java:146-159 | throws when matches throws; null when there is no match; otherwise the groups of the match just found, copied by the loop in index order; afterwards the matcher holds this search's match, or is untouched after a compile failure |
| `OroRegexp.JakartaOroMatcher.GetGroupsDefault` | src/main/org/apache/tools/ant/util/regexp/JakartaOroMatcher.java:136-138 | getGroups(argument) gives what getGroups(argument, MATCH_DEFAULT) gives and leaves the matcher in the same state |
| `OroRegexp.GroupsAbsentExactlyWhenNoMatch` | src/main/org/apache/tools/ant/util/regexp/JakartaOroMatcher.java:146-151 | getGroups returns null exactly when matches returns false, a vector exactly when it returns true, and throws exactly when matches throws, with the same exception |
| `OroRegexp.GroupsAreThoseOfTheMatch` | src/main/org/apache/tools/ant/util/regexp/JakartaOroMatcher.java:152-158 | a returned vector has as many elements as the match has groups, and element i is group i of that same match |
| `OroRegexp.GroupZeroIsMatchedText` | src/main/org/apache/tools/ant/util/regexp/JakartaOroMatcher.java:130-134 | if the library reports the full match as group 0, every returned vector is non-empty and begins with a piece of the input |
| `OroRegexp.ResetPatternThenMatch` | src/main/org/apache/tools/ant/util/regexp/JakartaOroMatcher.java:84-128 | after setPattern, matches depends only on the new pattern, whatever the earlier pattern was or matched |
| `Logging.NatToStringRoundTrip` | src/main/org/apache/tools/ant/DefaultLogger.java:222-229 | the decimal rendering of a count reads back as the same count |
| `Logging.MinutesOfMillis` | src/main/org/apache/tools/ant/DefaultLogger.java:218-219 | whole seconds, then whole minutes of those, is the whole minutes of the duration |
| `Logging.FormatTimeUnderAMinute` | src/main/org/apache/tools/ant/DefaultLogger.java:217-231 | under one minute the text is "s second", plural unless s is 1, where s is the whole seconds |
| `Logging.FormatTimeWithMinutes` | src/main/org/apache/tools/ant/DefaultLogger.java:222-226 | from one minute on, the text is the whole minutes (singular only for 1), a space, then the remaining whole seconds (singular only for 1); those seconds lie in 0..59 and with the minutes make up the whole seconds |
| `Logging.FormatTimeNegative` | src/main/org/apache/tools/ant/DefaultLogger.java:217-231 | a negative duration prints the seconds truncated toward zero, always plural |
| `Logging.JavaLengthBounds` | src/main/org/apache/tools/ant/DefaultLogger.java:198-199 | the label length the padding loop compares against counts UTF-16 code units: between the number of characters and twice it, and equal to it when every character is in the Basic Multilingual Plane |
| `Logging.LabelledMessageLayout` | src/main/org/apache/tools/ant/DefaultLogger.java:194-206 | with a task and emacs mode off, the text is spaces, "[name] ", then the message; the prefix's Java length (UTF-16 code units) is max(12, length(name) + 3), so there is no padding once the label fills 12 units |
| `Logging.UnlabelledMessage` | src/main/org/apache/tools/ant/DefaultLogger.java:194-207 | in emacs mode or without a task, the text is exactly the message |
| `Logging.ComposeMessage` | src/main/org/apache/tools/ant/DefaultLogger.java:192-207 | the padding loop and appends produce exactly the message text laid out as above |
| `Logging.SummaryReportsOutcome` | src/main/org/apache/tools/ant/DefaultLogger.java:138-145 | the summary starts with a line break and "BUILD SUCCESSFUL" exactly when there is no error, and with "BUILD FAILED" and a line break exactly when there is one |
| `Logging.SummaryFailureDetail` | src/main/org/apache/tools/ant/DefaultLogger.java:147-158 | after the failure headline comes the stack trace when the level is VERBOSE or above or the error is not a BuildException, and the exception's toString and a line break otherwise |
| `Logging.SummaryEndsWithTotalTime` | src/main/org/apache/tools/ant/DefaultLogger.java:160-162 | every summary ends with a line break, "Total time: " and the formatted duration |
| `Logging.ComposeSummary` | src/main/org/apache/tools/ant/DefaultLogger.java:135-163 | the appends build exactly the summary described above; the getMessage branch is unreachable |
| `Logging.DefaultLogger.constructor` | src/main/org/apache/tools/ant/DefaultLogger.java:71-79 | a new logger prints errors only, is not in emacs mode, takes the current time as its start, and has printed nothing |
| `Logging.DefaultLogger.SetMessageOutputLevel` | src/main/org/apache/tools/ant/DefaultLogger.java:95-97 | the output level becomes the given level; nothing else changes |
| `Logging.DefaultLogger.SetEmacsMode` | src/main/org/apache/tools/ant/DefaultLogger.java:123-125 | emacs mode becomes the given value; nothing else changes |
| `Logging.DefaultLogger.BuildStarted` | src/main/org/apache/tools/ant/DefaultLogger.java:127-129 | the start time becomes the current time |
| `Logging.DefaultLogger.Log` | src/main/org/apache/tools/ant/DefaultLogger.java:239 | the hook receives the line, appended to what it has received |
| `Logging.DefaultLogger.BuildFinished` | src/main/org/apache/tools/ant/DefaultLogger.java:134-171 | the summary for the time elapsed since the start is printed once, to out after success and to err after failure, and passed to log; the other stream is unchanged |
| `Logging.DefaultLogger.TargetStarted` | src/main/org/apache/tools/ant/DefaultLogger.java:174-180 | at MSG_INFO or a more verbose level, a line break, the target name and ":" go to out and log; otherwise nothing is printed |
| `Logging.DefaultLogger.MessageLogged` | src/main/org/apache/tools/ant/DefaultLogger.java:188-215 | a message above the output level prints nothing anywhere; otherwise its text goes to err at MSG_ERR and to out at any other priority, and the same string goes to log |

## Left out

- proposal/myrmidon/src/todo/org/apache/tools/ant/taskdefs/Touch.java is file-system work (file creation, modification times, directory scanning, locale-dependent date parsing), so it is not part of this model.
- The regular-expression semantics of ORO's Perl5Compiler and Perl5Matcher are a foreign library. They are the uninterpreted `Compiler` and `Searcher`, so nothing is stated about what a particular pattern matches (for example case-insensitive or multiline behaviour).
- Runtime exceptions from `Perl5Matcher.contains`, `getMatch` or `MatchResult.group` are not modelled. Only compilation can fail.
- `setOutputPrintStream` and `setErrorPrintStream` wrap a caller's stream in an auto-flushing `PrintStream`. Here each stream is a sequence that starts empty, and the line terminator `println` adds is not part of an element. In Java `out` and `err` are null until those setters run, and until then `messageLogged`, `targetStarted` and `buildFinished` throw a NullPointerException when they print; the model has no such failure.
- `targetFinished`, `taskStarted` and `taskFinished` do nothing, so they are not modelled.
- Null strings are not modelled for messages, task names and target names; in Java `StringBuffer.append(null)` prints "null". Only the pattern may be null.
- `now - startTime` is unbounded, so `long` overflow of the elapsed time is not modelled.
- The text of a stack trace and of `toString` are given strings, not derived from the exception.
- Concurrency is not modelled: neither class is meant to be shared between threads.
