/**
 * The logger's state and the operations that change it: construction,
 * `setLevel`, `enableFileOutput` (with `m_isFileOutputEnabled`),
 * `m_logMessage`, and the two message builders that feed it.
 *
 * Every method of `Logger` is specified by a function on `LoggerState`, a
 * snapshot of the object's fields; the properties of the logger are lemmas
 * about those functions. The console and the log file are modelled as the
 * sequences of lines written to them; the timestamp, and whether the
 * operating system lets a file be opened, are parameters. `exit(-1)` is
 * modelled by the `terminated` flag and `exitStatus`: no operation runs once
 * the flag is set.
 */
module Loggers {
  import opened Levels
  import opened LogLine
  import Decimal
  import Formatting

  datatype Option<T> = None | Some(value: T)

  /** How a call ends: it returns a value, or it throws `std::ios_base::failure` with a message. */
  datatype Outcome<T> = Returned(value: T) | Thrown(message: string)

  /**
   * The `std::ofstream` member: closed, or open on `path`. `good` is false
   * once an `open` on the already open stream has set its failbit; a stream
   * in that state writes nothing.
   */
  datatype FileStream = Closed | Open(path: string, good: bool)

  /** The stream takes output: `m_file << line` reaches the file. */
  predicate Writable(stream: FileStream) {
    stream.Open? && stream.good
  }

  /**
   * `stream.open(path, std::ios::app)`. On a closed stream the outcome is
   * the operating system's (`openSucceeds`); a stream that is already open
   * cannot be opened again: it keeps its file and its failbit is set.
   */
  function OpenForAppend(stream: FileStream, path: string, openSucceeds: bool): (r: FileStream)
    ensures r.Open? <==> stream.Open? || openSucceeds
    ensures Writable(r) <==> stream.Closed? && openSucceeds
    ensures Writable(r) ==> r.path == path
    ensures stream.Open? ==> r.path == stream.path
  {
    match stream
    case Open(p, _) => Open(p, false)
    case Closed => if openSucceeds then Open(path, true) else Closed
  }

  /**
   * `a` is a subsequence of `b`: `b` with some elements removed is `a`.
   * Matching from the end is enough: when the last elements agree they may
   * always be paired.
   */
  predicate IsSubsequence<T(==)>(a: seq<T>, b: seq<T>)
    decreases |b|
  {
    if a == [] then true
    else if b == [] then false
    else if a[|a| - 1] == b[|b| - 1] then IsSubsequence(a[..|a| - 1], b[..|b| - 1])
    else IsSubsequence(a, b[..|b| - 1])
  }

  lemma {:induction false} SubsequenceDropLast<T>(a: seq<T>, b: seq<T>)
    requires a != [] && IsSubsequence(a, b)
    ensures IsSubsequence(a[..|a| - 1], b)
    decreases |b|, 0
  {
    var a' := a[..|a| - 1];
    if a' != [] {
      if a[|a| - 1] == b[|b| - 1] {
        SubsequenceExtend(a', b[..|b| - 1], b[|b| - 1]);
        assert b[..|b| - 1] + [b[|b| - 1]] == b;
      } else {
        SubsequenceDropLast(a, b[..|b| - 1]);
        SubsequenceExtend(a', b[..|b| - 1], b[|b| - 1]);
        assert b[..|b| - 1] + [b[|b| - 1]] == b;
      }
    }
  }

  /** Writing to `b` alone keeps `a` a subsequence of it. */
  lemma {:induction false} SubsequenceExtend<T>(a: seq<T>, b: seq<T>, x: T)
    requires IsSubsequence(a, b)
    ensures IsSubsequence(a, b + [x])
    decreases |b|, 1
  {
    var b' := b + [x];
    assert b'[..|b'| - 1] == b;
    if a != [] && a[|a| - 1] == x {
      SubsequenceDropLast(a, b);
    }
  }

  /** Writing the same element to both keeps `a` a subsequence of `b`. */
  lemma SubsequenceAppendBoth<T>(a: seq<T>, b: seq<T>, x: T)
    requires IsSubsequence(a, b)
    ensures IsSubsequence(a + [x], b + [x])
  {
    assert (a + [x])[..|a|] == a;
    assert (b + [x])[..|b|] == b;
  }

  /** The fields of the logger object. */
  datatype LoggerState = LoggerState(
    threshold: LogLevel,    // m_message_level
    filePath: string,       // m_file_path
    file: FileStream,       // m_file
    console: seq<string>,   // lines written to std::cout
    fileLines: seq<string>, // lines written through m_file
    terminated: bool,       // exit has been called
    exitStatus: int)        // the status passed to exit

  /**
   * What holds of every reachable state: a stream is only ever open on a
   * non-empty path, termination is always with status -1, and the file
   * receives only lines that also went to the console, in the same order.
   */
  predicate Consistent(s: LoggerState) {
    && (s.file.Open? ==> s.file.path != "")
    && (s.terminated ==> s.exitStatus == -1)
    && IsSubsequence(s.fileLines, s.console)
  }

  /** The state right after construction. */
  function InitialState(): (s: LoggerState)
    ensures Consistent(s) && !s.terminated && !Writable(s.file)
  {
    LoggerState(TRACE, "", Closed, [], [], false, 0)
  }

  /** `setLevel`: the new threshold, and nothing else. */
  function SetLevelState(s: LoggerState, value: LogLevel): (r: LoggerState)
    ensures Consistent(s) ==> Consistent(r)
    ensures r.threshold == value && r.console == s.console && r.fileLines == s.fileLines
  {
    s.(threshold := value)
  }

  const OPEN_FAILURE_PREFIX: string := "Failed to open log file: "

  /** `m_isFileOutputEnabled`: open the configured path, if there is one. */
  function OpenConfiguredFile(s: LoggerState, openSucceeds: bool): (r: (LoggerState, Outcome<bool>))
    ensures r.0 == s.(file := r.0.file)
    ensures r.1 == Returned(false) <==> s.filePath == ""
    ensures r.1 == Returned(true) ==> r.0.file.Open?
    ensures r.1.Thrown? <==> s.filePath != "" && s.file.Closed? && !openSucceeds
    ensures r.1.Thrown? ==> r.0.file.Closed?
  {
    if s.filePath == "" then (s, Returned(false))
    else
      var s' := s.(file := OpenForAppend(s.file, s.filePath, openSucceeds));
      if s'.file.Open? then (s', Returned(true))
      else (s', Thrown(OPEN_FAILURE_PREFIX + s.filePath))
  }

  /** `enableFileOutput(path)`: record the path, then open it. The enabled flag is discarded. */
  function EnableFileOutputState(s: LoggerState, path: string, openSucceeds: bool): (r: (LoggerState, Outcome<()>))
    ensures r.0 == s.(filePath := path, file := r.0.file)
    ensures r.1.Thrown? <==> path != "" && s.file.Closed? && !openSucceeds
    ensures path == "" ==> r.0.file == s.file
  {
    var (s', outcome) := OpenConfiguredFile(s.(filePath := path), openSucceeds);
    (s', if outcome.Thrown? then Thrown(outcome.message) else Returned(()))
  }

  /**
   * `m_logMessage`: when the level passes the threshold, one composed line
   * goes to the console and, if the stream takes output, to the file; a
   * CRITICAL message then ends the process with status -1.
   */
  function Emit(s: LoggerState, level: LogLevel, message: string, timestamp: string): (r: LoggerState)
    requires !s.terminated
    ensures r.threshold == s.threshold && r.filePath == s.filePath && r.file == s.file
    ensures |r.console| == |s.console| + (if AtMost(s.threshold, level) then 1 else 0)
    ensures r.terminated ==> level == CRITICAL && r.exitStatus == -1
  {
    if !AtMost(s.threshold, level) then s
    else
      var line := ComposeLine(timestamp, level, message);
      s.(console := s.console + [line],
         fileLines := if Writable(s.file) then s.fileLines + [line] else s.fileLines,
         terminated := level == CRITICAL,
         exitStatus := if level == CRITICAL then -1 else s.exitStatus)
  }

  // ---------------------------------------------------------------- properties of the state functions

  /** Every operation keeps a consistent state consistent, starting from the initial one. */
  lemma OperationsPreserveConsistency(s: LoggerState, level: LogLevel, path: string, openSucceeds: bool,
                                      message: string, timestamp: string)
    requires Consistent(s)
    ensures Consistent(InitialState())
    ensures Consistent(SetLevelState(s, level))
    ensures Consistent(OpenConfiguredFile(s, openSucceeds).0)
    ensures Consistent(EnableFileOutputState(s, path, openSucceeds).0)
    ensures !s.terminated ==> Consistent(Emit(s, level, message, timestamp))
  {
    if !s.terminated && AtMost(s.threshold, level) {
      var line := ComposeLine(timestamp, level, message);
      if Writable(s.file) {
        SubsequenceAppendBoth(s.fileLines, s.console, line);
      } else {
        SubsequenceExtend(s.fileLines, s.console, line);
      }
    }
  }

  /** A message below the threshold changes nothing and writes nothing. */
  lemma FilteredMessageHasNoEffect(s: LoggerState, level: LogLevel, message: string, timestamp: string)
    requires !s.terminated
    ensures !AtMost(s.threshold, level) <==> Emit(s, level, message, timestamp) == s
  {
    if AtMost(s.threshold, level) {
      assert |Emit(s, level, message, timestamp).console| == |s.console| + 1;
    }
  }

  /**
   * A message that passes the threshold adds exactly one line to the
   * console, the composed line; the file receives the same line exactly when
   * the stream takes output. Configuration is never changed by emission.
   */
  lemma EmittedMessageWritesOneLine(s: LoggerState, level: LogLevel, message: string, timestamp: string)
    requires !s.terminated && AtMost(s.threshold, level)
    ensures var r := Emit(s, level, message, timestamp);
      var line := ComposeLine(timestamp, level, message);
      && r.console == s.console + [line]
      && (Writable(s.file) ==> r.fileLines == s.fileLines + [line])
      && (!Writable(s.file) ==> r.fileLines == s.fileLines)
      && r.threshold == s.threshold && r.filePath == s.filePath && r.file == s.file
  {
  }

  /**
   * CRITICAL passes every threshold, and emission ends the process exactly
   * for CRITICAL messages, with status -1.
   */
  lemma OnlyCriticalTerminates(s: LoggerState, level: LogLevel, message: string, timestamp: string)
    requires !s.terminated
    ensures AtMost(s.threshold, CRITICAL)
    ensures Emit(s, level, message, timestamp).terminated <==> level == CRITICAL
    ensures level == CRITICAL ==> Emit(s, level, message, timestamp).exitStatus == -1
  {
    AtMostBounds(s.threshold);
  }

  /** Raising the threshold above a level silences that level on both outputs. */
  lemma ThresholdSilencesLowerLevels(s: LoggerState, high: LogLevel, low: LogLevel, message: string, timestamp: string)
    requires !s.terminated && !AtMost(high, low)
    ensures var s' := SetLevelState(s, high);
      Emit(s', low, message, timestamp) == s'
  {
  }

  /**
   * Enabling output to a path that opens, then emitting a passing message:
   * console and file each gain the same single line.
   */
  lemma EnabledFileMirrorsConsole(s: LoggerState, path: string, level: LogLevel, message: string, timestamp: string)
    requires !s.terminated && s.file.Closed? && path != "" && AtMost(s.threshold, level)
    ensures var (s1, outcome) := EnableFileOutputState(s, path, true);
      var s2 := Emit(s1, level, message, timestamp);
      var line := ComposeLine(timestamp, level, message);
      && outcome == Returned(())
      && s1.file == Open(path, true)
      && s2.console == s.console + [line]
      && s2.fileLines == s.fileLines + [line]
  {
  }

  /**
   * Enabling output to a path that does not open reports the failure with
   * the path in its message; the stream stays closed and later messages
   * still reach the console, and only the console.
   */
  lemma FailedOpenLeavesConsoleOnly(s: LoggerState, path: string, level: LogLevel, message: string, timestamp: string)
    requires !s.terminated && s.file.Closed? && path != "" && AtMost(s.threshold, level)
    ensures var (s1, outcome) := EnableFileOutputState(s, path, false);
      var s2 := Emit(s1, level, message, timestamp);
      && outcome == Thrown(OPEN_FAILURE_PREFIX + path)
      && s1.file == Closed && s1.filePath == path
      && s2.console == s.console + [ComposeLine(timestamp, level, message)]
      && s2.fileLines == s.fileLines
  {
  }

  /** An empty path records the path and attempts no open: the stream and the outcome are untouched. */
  lemma EmptyPathOpensNothing(s: LoggerState, openSucceeds: bool)
    ensures var (s1, outcome) := EnableFileOutputState(s, "", openSucceeds);
      s1 == s.(filePath := "") && outcome == Returned(())
  {
  }

  /**
   * Enabling file output again while a file is open does not throw and does
   * not switch files: the open fails on the open stream, its failbit stays
   * set, and from then on emitted lines reach the console only.
   */
  lemma ReenablingWhileOpenStopsMirroring(s: LoggerState, path: string, openSucceeds: bool,
                                          level: LogLevel, message: string, timestamp: string)
    requires !s.terminated && s.file.Open? && path != "" && AtMost(s.threshold, level)
    ensures var (s1, outcome) := EnableFileOutputState(s, path, openSucceeds);
      var s2 := Emit(s1, level, message, timestamp);
      && outcome == Returned(())
      && s1.file == Open(s.file.path, false)
      && s2.console == s.console + [ComposeLine(timestamp, level, message)]
      && s2.fileLines == s.fileLines
  {
  }

  /**
   * Enabling file output with the empty path while a file is open opens
   * nothing and throws nothing: the old file stays open and keeps receiving
   * every emitted line.
   */
  lemma EmptyPathKeepsMirroring(s: LoggerState, openSucceeds: bool, level: LogLevel, message: string, timestamp: string)
    requires !s.terminated && Writable(s.file) && AtMost(s.threshold, level)
    ensures var (s1, outcome) := EnableFileOutputState(s, "", openSucceeds);
      var s2 := Emit(s1, level, message, timestamp);
      var line := ComposeLine(timestamp, level, message);
      && outcome == Returned(())
      && s1.file == s.file
      && s2.console == s.console + [line]
      && s2.fileLines == s.fileLines + [line]
  {
  }

  // ---------------------------------------------------------------- the build-mode routing of the LOG_* macros

  /** Which set of LOG_* macros the program was compiled with. */
  datatype BuildMode = DebugBuild | ReleaseBuild

  /**
   * The message a LOG_<level> call site hands to emission: the plain one in
   * a debug build; in a release build none for TRACE and DEBUG, whose
   * macros expand to nothing, and the one with the call site otherwise.
   */
  function MacroMessage(mode: BuildMode, level: LogLevel, sourceFile: string, sourceLine: Decimal.Int32,
                        template: string, args: seq<string>): (r: Option<string>)
    ensures mode == DebugBuild ==> r.Some?
    ensures mode == ReleaseBuild ==> (r.None? <==> !AtMost(INFO, level))
  {
    match mode
    case DebugBuild => Some(Formatting.DefaultMessage(template, args))
    case ReleaseBuild =>
      if level == TRACE || level == DEBUG then None
      else Some(Formatting.ContextMessage(sourceFile, sourceLine, template, args))
  }

  /** What a LOG_<level> call site does to the logger. */
  function MacroState(s: LoggerState, mode: BuildMode, level: LogLevel, sourceFile: string, sourceLine: Decimal.Int32,
                      template: string, args: seq<string>, timestamp: string): (r: LoggerState)
    requires !s.terminated
    ensures r.threshold == s.threshold && r.filePath == s.filePath && r.file == s.file
    ensures mode == ReleaseBuild && !AtMost(INFO, level) ==> r == s
    ensures |r.console| <= |s.console| + 1
  {
    match MacroMessage(mode, level, sourceFile, sourceLine, template, args)
    case None => s
    case Some(message) => Emit(s, level, message, timestamp)
  }

  /**
   * A release build never writes TRACE or DEBUG lines, whatever the
   * threshold; every line it writes carries the call site; a debug build
   * writes the formatted template as it is.
   */
  lemma ReleaseBuildRouting(s: LoggerState, mode: BuildMode, level: LogLevel, sourceFile: string,
                            sourceLine: Decimal.Int32, template: string, args: seq<string>, timestamp: string)
    requires !s.terminated
    ensures mode == ReleaseBuild && !AtMost(INFO, level) ==>
      MacroState(s, mode, level, sourceFile, sourceLine, template, args, timestamp) == s
    ensures mode == ReleaseBuild && AtMost(INFO, level) ==>
      MacroState(s, mode, level, sourceFile, sourceLine, template, args, timestamp)
      == Emit(s, level, Formatting.Format(template, args) + " at (" + sourceFile + ": " + Decimal.IntDecimal(sourceLine) + ")-", timestamp)
    ensures mode == DebugBuild ==>
      MacroState(s, mode, level, sourceFile, sourceLine, template, args, timestamp)
      == Emit(s, level, Formatting.Format(template, args), timestamp)
  {
  }

  // ---------------------------------------------------------------- the logger object

  const DEFAULT_LOG_PATH: string := "log.txt"

  class Logger {
    var threshold: LogLevel
    var filePath: string
    var file: FileStream
    var console: seq<string>
    var fileLines: seq<string>
    var terminated: bool
    var exitStatus: int

    function State(): LoggerState
      reads this
    {
      LoggerState(threshold, filePath, file, console, fileLines, terminated, exitStatus)
    }

    predicate Valid()
      reads this
    {
      Consistent(State())
    }

    /** Threshold TRACE, no path, no open file, nothing written. */
    constructor()
      ensures Valid() && State() == InitialState()
    {
      threshold := TRACE;
      filePath := "";
      file := Closed;
      console := [];
      fileLines := [];
      terminated := false;
      exitStatus := 0;
    }

    method SetLevel(value: LogLevel)
      requires Valid() && !terminated
      modifies this
      ensures Valid() && State() == SetLevelState(old(State()), value)
    {
      threshold := value;
    }

    method IsFileOutputEnabled(openSucceeds: bool) returns (outcome: Outcome<bool>)
      requires Valid() && !terminated
      modifies this
      ensures Valid() && (State(), outcome) == OpenConfiguredFile(old(State()), openSucceeds)
    {
      if filePath != "" {
        file := OpenForAppend(file, filePath, openSucceeds);
        if !file.Open? {
          return Thrown(OPEN_FAILURE_PREFIX + filePath);
        }
        return Returned(true);
      }
      return Returned(false);
    }

    method EnableFileOutput(openSucceeds: bool, path: string := DEFAULT_LOG_PATH) returns (outcome: Outcome<()>)
      requires Valid() && !terminated
      modifies this
      ensures Valid() && (State(), outcome) == EnableFileOutputState(old(State()), path, openSucceeds)
    {
      filePath := path;
      var enabled := IsFileOutputEnabled(openSucceeds);
      outcome := if enabled.Thrown? then Thrown(enabled.message) else Returned(());
    }

    method LogMessage(level: LogLevel, message: string, timestamp: string)
      requires Valid() && !terminated
      modifies this
      ensures Valid() && State() == Emit(old(State()), level, message, timestamp)
    {
      OperationsPreserveConsistency(State(), level, "", false, message, timestamp);
      ghost var target := Emit(State(), level, message, timestamp);
      if AtMost(threshold, level) {
        var line := ComposeLine(timestamp, level, message);
        console := console + [line];
        if Writable(file) {
          fileLines := fileLines + [line];
        }
        if level == CRITICAL {
          terminated := true;
          exitStatus := -1;
        }
      }
      assert State() == target;
    }

    method LogDefaultMessage(level: LogLevel, template: string, args: seq<string>, timestamp: string)
      requires Valid() && !terminated
      modifies this
      ensures Valid() && State() == Emit(old(State()), level, Formatting.DefaultMessage(template, args), timestamp)
    {
      LogMessage(level, Formatting.DefaultMessage(template, args), timestamp);
    }

    method LogContextMessage(level: LogLevel, sourceFile: string, sourceLine: Decimal.Int32,
                             template: string, args: seq<string>, timestamp: string)
      requires Valid() && !terminated
      modifies this
      ensures Valid()
      ensures State() == Emit(old(State()), level, Formatting.ContextMessage(sourceFile, sourceLine, template, args), timestamp)
    {
      LogMessage(level, Formatting.ContextMessage(sourceFile, sourceLine, template, args), timestamp);
    }

    /** A LOG_<level> call site compiled in `mode`. */
    method Log(mode: BuildMode, level: LogLevel, sourceFile: string, sourceLine: Decimal.Int32,
               template: string, args: seq<string>, timestamp: string)
      requires Valid() && !terminated
      modifies this
      ensures Valid()
      ensures State() == MacroState(old(State()), mode, level, sourceFile, sourceLine, template, args, timestamp)
    {
      match mode
      case DebugBuild =>
        LogDefaultMessage(level, template, args, timestamp);
      case ReleaseBuild =>
        if level != TRACE && level != DEBUG {
          LogContextMessage(level, sourceFile, sourceLine, template, args, timestamp);
        }
    }
  }

  /**
   * A template without markers reaches emission verbatim, whatever the
   * arguments: followed by the call site in a release build, unless the
   * level's macro is compiled out.
   */
  lemma PlainTemplateMessage(mode: BuildMode, level: LogLevel, sourceFile: string, sourceLine: Decimal.Int32,
                             template: string, args: seq<string>)
    requires !Formatting.HasMarker(template)
    ensures mode == DebugBuild ==>
      MacroMessage(mode, level, sourceFile, sourceLine, template, args) == Some(template)
    ensures mode == ReleaseBuild && AtMost(INFO, level) ==>
      MacroMessage(mode, level, sourceFile, sourceLine, template, args)
      == Some(template + " at (" + sourceFile + ": " + Decimal.IntDecimal(sourceLine) + ")-")
  {
    Formatting.FormatWithoutMarker(template, args);
  }

  /** The messages the game's two call sites hand to emission. */
  lemma GameMessages(mode: BuildMode, sourceFile: string)
    ensures MacroMessage(mode, INFO, sourceFile, 10, "Game constructed %", ["1"]) == Some(
      if mode == DebugBuild then "Game constructed %" else "Game constructed %" + " at (" + sourceFile + ": " + "10" + ")-")
    ensures MacroMessage(mode, INFO, sourceFile, 17, "Game destructed %", ["1"]) == Some(
      if mode == DebugBuild then "Game destructed %" else "Game destructed %" + " at (" + sourceFile + ": " + "17" + ")-")
  {
    Formatting.FormatPercentIsNotMarker();
    Decimal.GameLineNumbers();
    PlainTemplateMessage(mode, INFO, sourceFile, 10, "Game constructed %", ["1"]);
    PlainTemplateMessage(mode, INFO, sourceFile, 17, "Game destructed %", ["1"]);
  }

  /**
   * What the game's two call sites write to the console of a fresh logger:
   * one INFO line when the game is constructed (line 10) and one when it is
   * destroyed (line 17). The `%` in each template is not a marker, so the
   * argument 1 is dropped.
   */
  lemma GameSessionOutput(mode: BuildMode, sourceFile: string, constructedAt: string, destructedAt: string)
    ensures var s1 := MacroState(InitialState(), mode, INFO, sourceFile, 10, "Game constructed %", ["1"], constructedAt);
      && !s1.terminated
      && var s2 := MacroState(s1, mode, INFO, sourceFile, 17, "Game destructed %", ["1"], destructedAt);
      && (mode == DebugBuild ==> s2.console == [
           ComposeLine(constructedAt, INFO, "Game constructed %"),
           ComposeLine(destructedAt, INFO, "Game destructed %")])
      && (mode == ReleaseBuild ==> s2.console == [
           ComposeLine(constructedAt, INFO, "Game constructed %" + " at (" + sourceFile + ": " + "10" + ")-"),
           ComposeLine(destructedAt, INFO, "Game destructed %" + " at (" + sourceFile + ": " + "17" + ")-")])
  {
    GameMessages(mode, sourceFile);
    var m1 := if mode == DebugBuild then "Game constructed %" else "Game constructed %" + " at (" + sourceFile + ": " + "10" + ")-";
    var m2 := if mode == DebugBuild then "Game destructed %" else "Game destructed %" + " at (" + sourceFile + ": " + "17" + ")-";
    var s1 := MacroState(InitialState(), mode, INFO, sourceFile, 10, "Game constructed %", ["1"], constructedAt);
    assert s1 == Emit(InitialState(), INFO, m1, constructedAt);
    assert s1.console == [ComposeLine(constructedAt, INFO, m1)] && !s1.terminated && s1.threshold == TRACE;
    var s2 := MacroState(s1, mode, INFO, sourceFile, 17, "Game destructed %", ["1"], destructedAt);
    assert s2 == Emit(s1, INFO, m2, destructedAt);
    assert s2.console == [ComposeLine(constructedAt, INFO, m1), ComposeLine(destructedAt, INFO, m2)];
  }

  /** The game's use of the logger object, with the output `GameSessionOutput` describes. */
  method GameSession(mode: BuildMode, sourceFile: string, constructedAt: string, destructedAt: string)
    returns (console: seq<string>)
    ensures console == MacroState(
      MacroState(InitialState(), mode, INFO, sourceFile, 10, "Game constructed %", ["1"], constructedAt),
      mode, INFO, sourceFile, 17, "Game destructed %", ["1"], destructedAt).console
  {
    GameSessionOutput(mode, sourceFile, constructedAt, destructedAt);
    var logger := new Logger();
    logger.Log(mode, INFO, sourceFile, 10, "Game constructed %", ["1"], constructedAt);
    logger.Log(mode, INFO, sourceFile, 17, "Game destructed %", ["1"], destructedAt);
    console := logger.console;
  }
}
