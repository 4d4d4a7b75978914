# Relic logger: a Dafny model

Relic is an application shell: it opens a window and logs two lifecycle messages. The only component with design content is its process-wide logger (`src/logger.h`, `src/logger.cpp`). This project models that logger and proves its properties:

- **Levels** (`levels.dfy`): the six severity levels `TRACE < DEBUG < INFO < WARNING < ERROR < CRITICAL`. The filter compares their underlying values.
  - The label and colour lookups are modelled as the source's `switch` statements over the enum's underlying integer, so the `default:` arms (" UNKNOWN " and black) are part of the model.
  - Each colour string is shown to be the Select Graphic Rendition sequence (ECMA-48, section 8.3.117) for its intended colour.
- **Formatter** (`formatting.dfy`): `m_formatMessage`. The leftmost `{}` is replaced by the first argument, and formatting continues on the text after that marker. Arguments are modelled as already-rendered strings.
  - The module also holds the two message builders behind `logDefaultMessage` and `logContextMessage`.
  - `decimal.dfy` renders the `int` line number as `operator<<` does, and proves the rendering reads back.
- **Line** (`log_line.dfy`): the composed line `<timestamp><colour> [<label>]: <message><reset>\n`.
- **Logger** (`logger.dfy`): a `Logger` class. Its fields are the threshold, the configured path, the file stream, the console and file contents (as sequences of lines), and a terminated flag with an exit status that stand for `exit(-1)`.
  - Every method is specified by a function on `LoggerState`, a snapshot of the fields.
  - The logger's properties are lemmas about those functions.
  - The timestamp, and whether the operating system lets the file be opened, are parameters.
  - The build-mode routing of the `LOG_*` macros is a `BuildMode` parameter.

Two behaviours of the code that are easy to miss:

- A second `enableFileOutput` with a non-empty path while a file is open does not switch files. `std::ofstream::open` on an open stream fails without throwing, keeps the old file and sets the stream's failbit. From then on, `m_file << line` writes nothing, so later lines reach the console only (`ReenablingWhileOpenStopsMirroring`).
- `enableFileOutput("")` records the empty path and opens nothing (`EmptyPathOpensNothing`). A file already open stays open and keeps receiving every line (`EmptyPathKeepsMirroring`).

## Model

| member | source | states |
|---|---|---|
| Levels.Ordinal | src/logger.h:13-21 | each level's underlying value is its declaration position, below six |
| Levels.OrdinalInjective | src/logger.h:13-21 | two levels have the same underlying value exactly when they are the same level |
| Levels.AtMost | src/logger.cpp:95 | the filter's `<=`: every level passes its own threshold, TRACE passes below every level, and every level passes below CRITICAL |
| Levels.AtMostIsTotalOrder | src/logger.cpp:95 | the filter's `<=` on levels is reflexive, antisymmetric, transitive and total |
| Levels.AtMostBounds | src/logger.cpp:95 | TRACE passes below every level and CRITICAL above every level, in the order TRACE < DEBUG < INFO < WARNING < ERROR < CRITICAL |
| Levels.LabelOfCode | src/logger.cpp:28-40 | the label switch always yields nine characters, and yields " UNKNOWN " exactly for codes outside the six enumerators |
| Levels.Label | src/logger.cpp:28-40 | a level's label is nine characters and never the default one |
| Levels.LabelWidth | src/logger.cpp:28-40 | every label, the default " UNKNOWN " included, is exactly nine characters |
| Levels.LabelsDistinct | src/logger.cpp:28-40 | the six labels are pairwise distinct, and none equals the default label |
| Levels.Sgr | src/logger.cpp:57-63 | an SGR sequence starts with ESC and '[' and ends with 'm' |
| Levels.ColorOfCode | src/logger.cpp:53-65 | every arm of the colour switch, default included, yields a five-character control sequence ESC '[' … 'm' |
| Levels.Color | src/logger.cpp:53-65 | a level's colour is a five-character control sequence ESC '[' … 'm' |
| Levels.ResetColor | src/logger.cpp:67-70 | the reset string is the SGR sequence with parameter 0 |
| Levels.ColorsAreSgr | src/logger.cpp:53-70 | each level's colour is the SGR sequence for bright black, blue, green, yellow, red or magenta; the default arm selects black; the reset string is SGR 0 |
| Levels.ColorWidth | src/logger.cpp:53-70 | every colour string is five characters and the reset string four |
| Levels.ColorsDistinct | src/logger.cpp:53-65 | the six colours are pairwise distinct |
| Decimal.NatDigits | src/logger.h:91 | a natural number renders as at least one digit, with no leading zero |
| Decimal.IntDecimal | src/logger.h:91 | the rendered line number is non-empty, starts with '-' exactly when negative, and is digits otherwise |
| Decimal.NatDigitsRoundTrip | src/logger.h:91 | reading the digits of a rendered natural number gives that number back |
| Decimal.IntDecimalRoundTrip | src/logger.h:91 | reading a rendered line number, sign included, gives that number back |
| Decimal.IntDecimalShape | src/logger.h:91 | a rendered number has a minus sign exactly when it is negative, then digits without a leading zero |
| Decimal.GameLineNumbers | src/game.cpp:10-17 | the game's line numbers 10 and 17 render as "10" and "17" |
| Formatting.FindMarker | src/logger.h:64-65 | a found marker lies inside the template |
| Formatting.FindMarkerLeftmost | src/logger.h:64-65 | the search finds a marker exactly when the template has one, and the one found is the leftmost |
| Formatting.Format | src/logger.h:60-75 | the formatter, recursion included: each argument consumes at most one two-character marker, so the result is at most two characters per argument shorter than the template |
| Formatting.FormatNoArguments | src/logger.cpp:72-75 | with no arguments the template is returned unchanged, markers included |
| Formatting.FormatWithoutMarker | src/logger.h:70-73 | a template without a marker is returned unchanged and every argument is dropped |
| Formatting.LeftmostMarkerAfterPlainPrefix | src/logger.h:64 | after a marker-free prefix, the leftmost marker is the one that follows the prefix |
| Formatting.FormatUnfold | src/logger.h:64-68 | for a marker-free prefix p, formatting p + "{}" + r with [a] + rest gives p + a + format(r, rest) |
| Formatting.SubstitutedTextNotRescanned | src/logger.h:67-68 | an argument appears verbatim even if it holds a marker that further arguments could fill |
| Formatting.FormatLength | src/logger.h:64-68 | exactly min(marker count, argument count) markers are replaced: length is template length - 2k + the lengths of the first k arguments |
| Formatting.SurplusArgumentsDropped | src/logger.h:70-73 | arguments beyond the number of markers do not affect the result |
| Formatting.FormatKeepsUnconsumedTail | src/logger.h:64-73 | the result ends with the template's text after the last replaced marker, verbatim, and that text holds exactly the markers no argument filled |
| Formatting.SurplusMarkersStayLiteral | src/logger.cpp:72-75 | with fewer arguments than markers, the result ends with the unconsumed template tail, which holds exactly marker count - argument count literal markers |
| Formatting.FormatTwoMarkers | src/logger.h:64-68 | two markers and two arguments are filled in order |
| Formatting.FormatPercentIsNotMarker | src/game.cpp:10-17 | the game's templates hold no marker and come back unchanged with the argument dropped |
| Formatting.DefaultMessage | src/logger.h:77-83 | the message `logDefaultMessage` hands on is the formatted template, at most two characters per argument shorter than the template |
| Formatting.ContextMessage | src/logger.h:85-93 | the message `logContextMessage` hands on starts with the formatted template, ends with ")-", and is at least ten characters longer than the formatted text and the file name together |
| Formatting.ContextMessageSuffix | src/logger.h:85-93 | the context message is the default message, then " at (", the file name, ": ", the line number (which reads back), and ")-" |
| LogLine.ComposeLine | src/logger.cpp:100-103 | the line starts with the timestamp, ends with a newline, and is exactly 24 characters longer than timestamp and message together |
| LogLine.ComposeLineLayout | src/logger.cpp:100-103 | the line is the timestamp, the colour, " [", the nine-character label, "]: ", the message, the reset and a newline, at fixed offsets |
| LogLine.ComposeLineIsOneLine | src/logger.cpp:100-103 | the line ends in its only newline when timestamp and message hold none |
| LogLine.ComposeLineInjective | src/logger.cpp:100-103 | for one timestamp, different levels or messages never give the same line |
| Loggers.OpenForAppend | src/logger.cpp:81-82 | a closed stream opens as the OS allows; an open stream stays on its old file with its failbit set; only a successful open on a closed stream takes output, on the new path |
| Loggers.InitialState | src/logger.cpp:9-12 | the state after construction is consistent, not terminated, and writes to no file |
| Loggers.SetLevelState | src/logger.cpp:119-122 | the threshold becomes the new value, the outputs are untouched, and consistency is kept |
| Loggers.OpenConfiguredFile | src/logger.cpp:77-91 | only the stream changes; returns false exactly when no path is configured; true means the stream is open; throws exactly when the path is set, the stream is closed and the open fails, and then the stream stays closed |
| Loggers.EnableFileOutputState | src/logger.cpp:124-129 | records the path and changes nothing else but the stream; throws exactly when the path is non-empty, the stream is closed and the open fails; an empty path leaves the stream as it was |
| Loggers.Emit | src/logger.cpp:93-117 | configuration is unchanged; one console line is added exactly when the level passes the threshold; termination happens only for CRITICAL, with status -1 |
| Loggers.OperationsPreserveConsistency | src/logger.cpp:77-129 | from the initial state, every operation keeps: an open stream has a non-empty path, termination has status -1, and the file lines are a subsequence of the console lines |
| Loggers.FilteredMessageHasNoEffect | src/logger.cpp:95 | a message leaves the state unchanged exactly when its level is below the threshold |
| Loggers.EmittedMessageWritesOneLine | src/logger.cpp:97-110 | a passing message appends exactly the composed line to the console, and to the file exactly when the stream takes output; configuration is untouched |
| Loggers.OnlyCriticalTerminates | src/logger.cpp:112-115 | CRITICAL passes every threshold, and emission terminates, with status -1, exactly for CRITICAL |
| Loggers.ThresholdSilencesLowerLevels | src/logger.cpp:95 | after setting the threshold above a level, a message at that level writes nothing |
| Loggers.EnabledFileMirrorsConsole | src/logger.cpp:77-110 | enabling a path that opens, then emitting, appends the same single line to console and file |
| Loggers.FailedOpenLeavesConsoleOnly | src/logger.cpp:81-85 | a path that does not open throws "Failed to open log file: " + path, leaves the stream closed, and later lines reach the console only |
| Loggers.EmptyPathOpensNothing | src/logger.cpp:79-90 | enabling with an empty path records it, attempts no open and reports nothing |
| Loggers.ReenablingWhileOpenStopsMirroring | src/logger.cpp:77-91 | enabling again with a non-empty path while open does not throw, keeps the old file with failbit set, and later lines reach the console only |
| Loggers.EmptyPathKeepsMirroring | src/logger.cpp:79-110 | enabling with the empty path while a file is open does not throw, keeps the stream as it was, and later lines still go to both console and file |
| Loggers.MacroMessage | src/logger.h:95-111 | a debug build always hands a message on; a release build hands none exactly for levels below INFO |
| Loggers.MacroState | src/logger.h:95-111 | a call site never changes the configuration, adds at most one console line, and in a release build leaves the state as it was for levels below INFO |
| Loggers.ReleaseBuildRouting | src/logger.h:95-111 | a release build writes no TRACE or DEBUG line and tags every other one with its call site; a debug build logs the formatted template |
| Loggers.PlainTemplateMessage | src/logger.h:77-93 | a marker-free template reaches emission verbatim, followed by the call site in a release build |
| Loggers.GameMessages | src/game.cpp:10-17 | the game's call sites hand "Game constructed %" and "Game destructed %" to emission, with the call site in a release build |
| Loggers.GameSessionOutput | src/game.cpp:10-17 | a fresh logger's console holds exactly the game's two INFO lines |
| Loggers.GameSession | src/game.cpp:7-18 | running the game's two call sites against a logger object yields the console of `GameSessionOutput` |
| Loggers.Logger.constructor | src/logger.cpp:9-12 | a new logger has threshold TRACE, no path, a closed stream and no output |
| Loggers.Logger.SetLevel | src/logger.cpp:119-122 | the threshold is replaced and nothing else changes |
| Loggers.Logger.IsFileOutputEnabled | src/logger.cpp:77-91 | with a path, opens it and returns true or throws; without one, returns false and changes nothing |
| Loggers.Logger.EnableFileOutput | src/logger.cpp:124-129 | records the path, then behaves as `IsFileOutputEnabled`, passing on its failure |
| Loggers.Logger.LogMessage | src/logger.cpp:93-117 | the new state is `Emit` of the old one: filter, one line to the console, the same line to a writable file, termination on CRITICAL |
| Loggers.Logger.LogDefaultMessage | src/logger.h:77-83 | emits the formatted template at the given level |
| Loggers.Logger.LogContextMessage | src/logger.h:85-93 | emits the formatted template followed by the call site at the given level |
| Loggers.Logger.Log | src/logger.h:95-111 | a `LOG_<level>` call site in the given build mode behaves as `MacroState` |

## Left out

- The singleton accessor `m_getInstance` and the deleted copy operations: the model works on one `Logger` object and does not express that no second one exists.
- The destructor, which closes the file at process teardown: teardown is outside the model.
- `m_getTimeStamp`: clock and time-zone access. The timestamp is a parameter of every emitting operation.
- `std::mutex` / `scoped_lock` and all thread-safety claims: each call is modelled as atomic.
- Real console and file I/O: the outputs are sequences of lines. Whether an open succeeds is a parameter. Write failures other than a stream in the failed state are not modelled.
- `exit(-1)`: modelled as a terminated flag and exit status. Every operation requires that the process has not terminated, since nothing runs after `exit`.
- Stringification of arbitrary argument types by `operator<<`: arguments are pre-rendered strings. Only the `int` line number is rendered by the model.
- Out-of-range enum values in the filter: `LogLevel` has exactly six values. The lookups' `default:` arms are modelled through the integer-code functions only.
- `src/game.cpp` and `src/game.h` (window and event loop): calls into a graphics library. Only the two log call sites are modelled, as a client.
