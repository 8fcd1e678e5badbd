/** The level-gated logger: a mutable configuration (threshold, timestamp
    pattern, formatter, writer) and `log`, which formats a message and hands it
    to the writer when the message's level passes the threshold. */
module Logging {
  import opened Options
  import opened Levels
  import opened Formatting

  /** The pattern a new timestamp generator starts with. */
  const DefaultTimestampPattern: string := "yyyy-MM-dd HH:mm:ss"

  /** One writer call: the formatted text and the message's level. */
  type Entry = (string, LogLevel)

  /** The gate of `log`: the message's level is at least the threshold, and
      the threshold is not OFF. A message passes exactly when the threshold is
      not OFF and the message's level is declared at or after it. */
  predicate Passes(level: LogLevel, threshold: LogLevel): (r: bool)
    ensures r <==> threshold != OFF && level in DeclarationOrder[Ordinal(threshold)..]
  {
    AtLeast(level, threshold) && threshold != OFF
  }

  /** With the threshold OFF nothing passes, FATAL included. */
  lemma OffSuppressesAll(level: LogLevel)
    ensures !Passes(level, OFF)
  {
  }

  /** The gate is non-strict: a message at exactly the threshold passes. */
  lemma GateIsNonStrict(level: LogLevel)
    requires level != OFF
    ensures Passes(level, level)
  {
  }

  /** A message below the threshold never passes. */
  lemma BelowThresholdBlocked(level: LogLevel, threshold: LogLevel)
    requires Ordinal(level) < Ordinal(threshold)
    ensures !Passes(level, threshold)
  {
  }

  /** Lowering the threshold lets through everything the higher one did. */
  lemma PassesMonotone(level: LogLevel, threshold: LogLevel, lower: LogLevel)
    requires Passes(level, threshold)
    requires AtLeast(threshold, lower)
    ensures Passes(level, lower)
  {
  }

  /** Under the default threshold WARNING exactly WARNING, ERROR, FATAL and
      OFF pass. */
  lemma DefaultThresholdGate(level: LogLevel)
    ensures Passes(level, WARNING) <==> level in {WARNING, ERROR, FATAL, OFF}
  {
  }

  /** A call made with the level OFF itself passes whenever the threshold is not OFF. */
  lemma OffMessagePasses(threshold: LogLevel)
    ensures Passes(OFF, threshold) <==> threshold != OFF
  {
  }

  /** What `log` hands to the writer under a threshold, a formatter and a
      timestamp pattern: one entry, with the formatter's text for the current
      time and the message's own level, if the message passes; none otherwise. */
  function Dispatch(threshold: LogLevel, formatter: FormatterPayload -> string, pattern: string,
                    level: LogLevel, message: string, clock: string -> string): (r: seq<Entry>)
    ensures |r| <= 1
    ensures |r| == 1 <==> Passes(level, threshold)
    ensures forall e :: e in r ==> e.1 == level
  {
    if Passes(level, threshold) then [(formatter(FormatterPayload(clock(pattern), level, message)), level)] else []
  }

  /** The holder of the timestamp pattern. Rendering the current time under
      the pattern is a clock read, so callers of `Logger.Log` supply it. */
  class TimestampGenerator {
    var pattern: string

    constructor()
      ensures pattern == DefaultTimestampPattern
    {
      pattern := DefaultTimestampPattern;
    }
  }

  /** A writer that records every call it receives, in order. */
  class RecordingWriter {
    var entries: seq<Entry>

    constructor()
      ensures entries == []
    {
      entries := [];
    }

    method Write(text: string, level: LogLevel)
      modifies this
      ensures entries == old(entries) + [(text, level)]
    {
      entries := entries + [(text, level)];
    }
  }

  class Logger {
    const timestampGenerator: TimestampGenerator
    var level: LogLevel
    var formatter: FormatterPayload -> string
    var writer: RecordingWriter

    /** A logger with the threshold WARNING, the default formatter, the
        default timestamp pattern and a writer that has received nothing. */
    constructor()
      ensures fresh(timestampGenerator) && fresh(writer)
      ensures level == WARNING && formatter == DefaultFormat
      ensures TimestampPattern() == DefaultTimestampPattern
      ensures writer.entries == []
    {
      timestampGenerator := new TimestampGenerator();
      level := WARNING;
      formatter := DefaultFormat;
      writer := new RecordingWriter();
    }

    /** The `timestampPattern` property reads the generator's pattern. */
    function TimestampPattern(): string
      reads this, timestampGenerator
    {
      timestampGenerator.pattern
    }

    /** The `timestampPattern` setter: reading it back gives the value set,
        and nothing else changes. */
    method SetTimestampPattern(value: string)
      modifies timestampGenerator
      ensures TimestampPattern() == value
      ensures unchanged(this) && unchanged(writer)
    {
      timestampGenerator.pattern := value;
    }

    /** Logs `message` at `level`. `clock` renders the current time under a
        pattern. The configuration is left as it was. */
    method Log(level: LogLevel, message: string, clock: string -> string)
      modifies writer
      ensures writer.entries == old(writer.entries) + Dispatch(this.level, formatter, TimestampPattern(), level, message, clock)
      ensures unchanged(this) && unchanged(timestampGenerator)
    {
      if AtLeast(level, this.level) && this.level != OFF {
        var formattedMessage := formatter(FormatterPayload(clock(timestampGenerator.pattern), level, message));
        writer.Write(formattedMessage, level);
      }
    }

    method Trace(message: string, clock: string -> string)
      modifies writer
      ensures writer.entries == old(writer.entries) + Dispatch(this.level, formatter, TimestampPattern(), TRACE, message, clock)
      ensures unchanged(this) && unchanged(timestampGenerator)
    {
      Log(TRACE, message, clock);
    }

    method Debug(message: string, clock: string -> string)
      modifies writer
      ensures writer.entries == old(writer.entries) + Dispatch(this.level, formatter, TimestampPattern(), DEBUG, message, clock)
      ensures unchanged(this) && unchanged(timestampGenerator)
    {
      Log(DEBUG, message, clock);
    }

    method Info(message: string, clock: string -> string)
      modifies writer
      ensures writer.entries == old(writer.entries) + Dispatch(this.level, formatter, TimestampPattern(), INFO, message, clock)
      ensures unchanged(this) && unchanged(timestampGenerator)
    {
      Log(INFO, message, clock);
    }

    method Warn(message: string, clock: string -> string)
      modifies writer
      ensures writer.entries == old(writer.entries) + Dispatch(this.level, formatter, TimestampPattern(), WARNING, message, clock)
      ensures unchanged(this) && unchanged(timestampGenerator)
    {
      Log(WARNING, message, clock);
    }

    method Error(message: string, clock: string -> string)
      modifies writer
      ensures writer.entries == old(writer.entries) + Dispatch(this.level, formatter, TimestampPattern(), ERROR, message, clock)
      ensures unchanged(this) && unchanged(timestampGenerator)
    {
      Log(ERROR, message, clock);
    }

    method Fatal(message: string, clock: string -> string)
      modifies writer
      ensures writer.entries == old(writer.entries) + Dispatch(this.level, formatter, TimestampPattern(), FATAL, message, clock)
      ensures unchanged(this) && unchanged(timestampGenerator)
    {
      Log(FATAL, message, clock);
    }
  }

  /** On a fresh logger, `trace`, `debug` and `info` write nothing: they are
      below the default threshold WARNING. */
  method FreshLoggerQuietSession(message: string,
                                 traceClock: string -> string, debugClock: string -> string, infoClock: string -> string)
    returns (entries: seq<Entry>)
    ensures entries == []
  {
    var logger := new Logger();
    logger.Trace(message, traceClock);
    logger.Debug(message, debugClock);
    logger.Info(message, infoClock);
    entries := logger.writer.entries;
  }

  /** On a fresh logger, `warn`, `error` and `fatal` each write one line, in
      call order, in default format with the default timestamp pattern. Each
      call reads the clock at its own moment, and each line carries the time
      of its own call. */
  method FreshLoggerWritingSession(message: string,
                                   warnClock: string -> string, errorClock: string -> string, fatalClock: string -> string)
    returns (entries: seq<Entry>)
    ensures entries == [(DefaultFormat(FormatterPayload(warnClock(DefaultTimestampPattern), WARNING, message)), WARNING),
                        (DefaultFormat(FormatterPayload(errorClock(DefaultTimestampPattern), ERROR, message)), ERROR),
                        (DefaultFormat(FormatterPayload(fatalClock(DefaultTimestampPattern), FATAL, message)), FATAL)]
  {
    var pattern := DefaultTimestampPattern;
    var warnEntry := (DefaultFormat(FormatterPayload(warnClock(pattern), WARNING, message)), WARNING);
    var errorEntry := (DefaultFormat(FormatterPayload(errorClock(pattern), ERROR, message)), ERROR);
    var logger := new Logger();
    var writer := logger.writer;
    logger.Warn(message, warnClock);
    assert writer.entries == [warnEntry];
    logger.Error(message, errorClock);
    assert writer.entries == [warnEntry, errorEntry];
    logger.Fatal(message, fatalClock);
    entries := writer.entries;
  }

  /** With the threshold set to OFF a logger writes nothing, even for FATAL. */
  method SilencedLoggerSession(message: string, clock: string -> string) returns (entries: seq<Entry>)
    ensures entries == []
  {
    var logger := new Logger();
    logger.level := OFF;
    logger.Warn(message, clock);
    logger.Error(message, clock);
    logger.Fatal(message, clock);
    logger.Log(OFF, message, clock);
    entries := logger.writer.entries;
  }

  /** A pattern set between two calls applies to the second call's timestamp
      and not to the first's. */
  method PatternChangeSession(first: string, second: string, message: string, clock: string -> string)
    returns (texts: seq<string>)
    ensures texts == [DefaultFormat(FormatterPayload(clock(first), WARNING, message)),
                      DefaultFormat(FormatterPayload(clock(second), WARNING, message))]
  {
    var logger := new Logger();
    logger.SetTimestampPattern(first);
    logger.Warn(message, clock);
    logger.SetTimestampPattern(second);
    logger.Warn(message, clock);
    texts := [logger.writer.entries[0].0, logger.writer.entries[1].0];
  }
}
