# logkat: level-gated logger and console writer, in Dafny

This project models two pieces of the logkat logging library for Kotlin:

- **`Logger`** (`src/commonMain/kotlin/Logger.kt`). It holds a mutable configuration: a threshold `level` (default `WARNING`), a timestamp pattern kept in a timestamp generator, a `formatter` (default `"$timestamp $level: $message"`) and a `writer`. `log(level, message)` formats the message and hands exactly one `(text, level)` pair to the writer when `level >= this.level` and `this.level != OFF`. Otherwise it does nothing. The six calls `trace` … `fatal` are `log` at a fixed level.
- **`ConsoleWriter`** of the older `loggerkt` package (`src/main/kotlin/com/serebit/loggerkt/writers/ConsoleWriter.kt`). At construction it decides once whether to use ANSI colours. Colours are on when the OS name does not start with `"Windows"` and the caller asked for them, which is the default. Each `log` call prints one line. That line is the colour-transformed message when colours are on and the message is a `LeveledLogMessage`, and the message itself otherwise.

Files:

- `options.dfy` (module `Options`): the `Option` datatype the parsers return.
- `levels.dfy` (module `Levels`): `LogLevel` in declaration order `TRACE < DEBUG < INFO < WARNING < ERROR < FATAL < OFF`. Kotlin compares enum constants by this order. The file also holds the level names and their parser.
- `formatting.dfy` (module `Formatting`): `FormatterPayload`, the default formatter, and a parser that inverts the formatter. The round trip shows that a written line keeps the message's level and text.
- `logger.dfy` (module `Logging`): the gate `Passes` and its lemmas, the pure `Dispatch` that `log` is specified by, plus the classes `TimestampGenerator`, `RecordingWriter` and `Logger`. It ends with four client sessions that show what a caller can conclude from the contracts.
- `console_writer.dfy` (module `ConsoleWriters`): the colour decision, the line chosen per message, and the `ConsoleWriter` class. The class keeps standard output as a `seq<string>` field.

The wall clock is a parameter. `Logger.Log` takes `clock: string -> string`, which renders the current instant under a pattern. The written timestamp is `clock(pattern)`, where `pattern` is the generator's current pattern.

The default formatter at `Logger.kt:29` prints the timestamp, the level and the message, and nothing else.

The gate at `Logger.kt:83` lets a call made with the level `OFF` through whenever the threshold is not `OFF`, because `OFF >= t` holds for every `t`. `Logging.OffMessagePasses` states this.

## Model

| member | source | states |
|---|---|---|
| `Levels.Ordinal` | src/commonMain/kotlin/Logger.kt:83 | each level's ordinal is its position in the declaration order, which Kotlin's `>=` on levels compares |
| `Levels.AtLeast` | src/commonMain/kotlin/Logger.kt:83 | Kotlin's `a >= b` on levels holds iff `b` is declared no later than `a` |
| `Levels.OrdinalInjective` | src/commonMain/kotlin/Logger.kt:83 | distinct levels have distinct ordinals |
| `Levels.AtLeastIsTotalOrder` | src/commonMain/kotlin/Logger.kt:83 | `>=` on levels is reflexive, antisymmetric, transitive and total |
| `Levels.OffIsGreatest` | src/commonMain/kotlin/Logger.kt:83 | `OFF` is at least every level, and only `OFF` is at least `OFF` |
| `Levels.Name` | src/commonMain/kotlin/Logger.kt:29 | the name printed for a level is non-empty and contains no colon |
| `Levels.ParseLevel` | src/commonMain/kotlin/Logger.kt:29 | a parsed name is exactly the name of the level returned |
| `Levels.ParseLevelName` | src/commonMain/kotlin/Logger.kt:29 | every level's name parses back to that level |
| `Formatting.DefaultFormat` | src/commonMain/kotlin/Logger.kt:29 | the default line starts with the timestamp and a space, ends with `": "` and the message, and is three characters longer than timestamp, level name and message together |
| `Formatting.ParseDefault` | src/commonMain/kotlin/Logger.kt:29 | any line the parser accepts is the default formatter's output for the payload it returns, with the given timestamp |
| `Formatting.DefaultFormatRoundTrip` | src/commonMain/kotlin/Logger.kt:29 | the default formatter's line parses back to the payload: timestamp, the message's own level and its text |
| `Formatting.DefaultFormatInjective` | src/commonMain/kotlin/Logger.kt:84-85 | two payloads with the same timestamp and the same default-formatted line are the same payload |
| `Logging.Passes` | src/commonMain/kotlin/Logger.kt:83 | a message passes the gate iff the threshold is not `OFF` and the message's level is declared at or after the threshold |
| `Logging.Dispatch` | src/commonMain/kotlin/Logger.kt:83-85 | under a given configuration, `log` hands at most one entry to the writer, exactly when the gate passes, and that entry carries the message's own level |
| `Logging.OffSuppressesAll` | src/commonMain/kotlin/Logger.kt:83 | with the threshold `OFF`, no level passes the gate, `FATAL` included |
| `Logging.GateIsNonStrict` | src/commonMain/kotlin/Logger.kt:83 | a message at exactly a non-`OFF` threshold passes |
| `Logging.BelowThresholdBlocked` | src/commonMain/kotlin/Logger.kt:83 | a message below the threshold never passes |
| `Logging.PassesMonotone` | src/commonMain/kotlin/Logger.kt:83 | a message that passes at a threshold also passes at every lower threshold |
| `Logging.DefaultThresholdGate` | src/commonMain/kotlin/Logger.kt:25 | under the default threshold `WARNING`, a level passes iff it is `WARNING`, `ERROR`, `FATAL` or `OFF` |
| `Logging.OffMessagePasses` | src/commonMain/kotlin/Logger.kt:83 | a call made with the level `OFF` passes iff the threshold is not `OFF` |
| `Logging.TimestampGenerator.constructor` | src/commonMain/kotlin/Logger.kt:13 | a new generator holds the assumed initial pattern (see "## Left out") |
| `Logging.RecordingWriter.Write` | src/commonMain/kotlin/Logger.kt:85 | the writer records the call's text and level after all earlier calls |
| `Logging.Logger.constructor` | src/commonMain/kotlin/Logger.kt:12-34 | a new logger has threshold `WARNING`, the default formatter, the default pattern and a writer that has received nothing |
| `Logging.Logger.TimestampPattern` | src/commonMain/kotlin/Logger.kt:18 | the property getter reads the pattern held by the logger's timestamp generator; `SetTimestampPattern` shows that it returns the value last set |
| `Logging.Logger.SetTimestampPattern` | src/commonMain/kotlin/Logger.kt:17-21 | reading the pattern back gives the value just set; threshold, formatter, writer and its entries are unchanged |
| `Logging.Logger.Log` | src/commonMain/kotlin/Logger.kt:78-87 | the writer gains exactly one entry when the gate passes, with the formatter's text for `clock(pattern)` and the message's own level, and none otherwise; the configuration is unchanged |
| `Logging.Logger.Trace` | src/commonMain/kotlin/Logger.kt:41 | the same as `Log` at `TRACE` |
| `Logging.Logger.Debug` | src/commonMain/kotlin/Logger.kt:48 | the same as `Log` at `DEBUG` |
| `Logging.Logger.Info` | src/commonMain/kotlin/Logger.kt:55 | the same as `Log` at `INFO` |
| `Logging.Logger.Warn` | src/commonMain/kotlin/Logger.kt:62 | the same as `Log` at `WARNING` |
| `Logging.Logger.Error` | src/commonMain/kotlin/Logger.kt:69 | the same as `Log` at `ERROR` |
| `Logging.Logger.Fatal` | src/commonMain/kotlin/Logger.kt:76 | the same as `Log` at `FATAL` |
| `Logging.FreshLoggerQuietSession` | src/commonMain/kotlin/Logger.kt:25-55 | on a fresh logger, `trace`, `debug` and `info` write nothing |
| `Logging.FreshLoggerWritingSession` | src/commonMain/kotlin/Logger.kt:25-86 | on a fresh logger, `warn`, `error` and `fatal` each write one default-formatted line, in call order, each carrying the time read by its own call |
| `Logging.SilencedLoggerSession` | src/commonMain/kotlin/Logger.kt:83 | with the threshold set to `OFF`, `warn`, `error`, `fatal` and `log(OFF, …)` write nothing |
| `Logging.PatternChangeSession` | src/commonMain/kotlin/Logger.kt:17-84 | a pattern set between two calls changes the second line's timestamp and not the first's |
| `ConsoleWriters.UseAnsiColors` | src/main/kotlin/com/serebit/loggerkt/writers/ConsoleWriter.kt:14 | colours are on iff the caller asked for them and the OS name does not start with `"Windows"` |
| `ConsoleWriters.WindowsNeverColours` | src/main/kotlin/com/serebit/loggerkt/writers/ConsoleWriter.kt:14 | on Windows, colours are off whatever the preference |
| `ConsoleWriters.OtherSystemsFollowPreference` | src/main/kotlin/com/serebit/loggerkt/writers/ConsoleWriter.kt:14 | on other systems, colours equal the preference |
| `ConsoleWriters.Line` | src/main/kotlin/com/serebit/loggerkt/writers/ConsoleWriter.kt:20-23 | the printed line differs from the message's text only when colours are on and the message is leveled, and then it is the colour transform of the message |
| `ConsoleWriters.PlainMessageUntransformed` | src/main/kotlin/com/serebit/loggerkt/writers/ConsoleWriter.kt:20-23 | a plain `LogMessage` is printed as its text even with colours on |
| `ConsoleWriters.LeveledMessageColoured` | src/main/kotlin/com/serebit/loggerkt/writers/ConsoleWriter.kt:20-21 | with colours on, a `LeveledLogMessage` is printed through the colour transform |
| `ConsoleWriters.Printed` | src/main/kotlin/com/serebit/loggerkt/writers/ConsoleWriter.kt:20-24 | a sequence of calls prints one line per message, in order, each the line for that message |
| `ConsoleWriters.ColoursOffPrintsTexts` | src/main/kotlin/com/serebit/loggerkt/writers/ConsoleWriter.kt:22-23 | with colours off, the output is exactly the messages' texts |
| `ConsoleWriters.PlainMessagesPrintVerbatim` | src/main/kotlin/com/serebit/loggerkt/writers/ConsoleWriter.kt:20-23 | messages without a level are printed verbatim whatever the colour setting |
| `ConsoleWriters.WindowsWriterPrintsTexts` | src/main/kotlin/com/serebit/loggerkt/writers/ConsoleWriter.kt:14-24 | a writer built on Windows has printed, over its whole history, exactly the texts of the messages it was given, whatever the preference |
| `ConsoleWriters.ConsoleWriter.constructor` | src/main/kotlin/com/serebit/loggerkt/writers/ConsoleWriter.kt:13-14 | the colour flag is fixed from the OS name and the preference, which defaults to true; nothing is printed yet |
| `ConsoleWriters.ConsoleWriter.Log` | src/main/kotlin/com/serebit/loggerkt/writers/ConsoleWriter.kt:20-24 | exactly one line is appended to the output, coloured iff colours are on and the message is leveled; the colour flag never changes |
| `ConsoleWriters.DefaultWriterColours` | src/main/kotlin/com/serebit/loggerkt/writers/ConsoleWriter.kt:11-14 | a writer built with no preference on a system other than Windows uses colours |
| `ConsoleWriters.WindowsSession` | src/main/kotlin/com/serebit/loggerkt/writers/ConsoleWriter.kt:14-24 | on Windows, every logged message is printed as its plain text, whatever the preference |

## Left out

- Wall-clock time and `TimestampGenerator.generate()`. `TimestampGenerator.kt` is not part of this model. The rendered time is the `clock` parameter of `Logger.Log`. The generator's initial pattern is not shown; the model assumes `"yyyy-MM-dd HH:mm:ss"`.
- Date-pattern syntax and the error raised for an invalid pattern. Both belong to the date formatting library, which is not part of this model.
- Exceptions thrown by a custom formatter or writer. The formatter is modelled as a total function value.
- Custom `MessageWriter` implementations and logkat's own default `ConsoleWriter`. `MessageWriter.kt` and the logkat `ConsoleWriter` are not part of this model, so the logger's writer is a sink that records each `(text, level)` call.
- `println`, standard output and `System.getProperty("os.name")`. Printed lines are the `output` field, and the OS name is a constructor parameter.
- The ANSI escape text of `withAnsiColorTransform`, which is not shown. The transform is a function value fixed at construction, so every property holds for any transform.
- The printed form of a `LogMessage`. `LogMessage.kt` is not part of this model, so its `toString` is modelled as the message's `text`.
- `LogLevel.kt` is not part of this model. Its constants are taken in the order and with the names used above.
- Asynchronous dispatch, threads and context names. Nothing in the modelled code does this.
- The private `timestampGenerator` is a `const` in the model. The class never reassigns it.
