/** The console writer of the `loggerkt` package: whether it colours its
    output is decided once, from the operating system's name and the caller's
    preference, and each `log` call prints one line to standard output. */
module ConsoleWriters {
  import opened Levels

  /** A message as the writer receives it: plain, or carrying a level. */
  datatype LogMessage =
    | LogMessage(text: string)
    | LeveledLogMessage(text: string, level: LogLevel)

  /** The messages an ANSI colour transform applies to. */
  type LeveledMessage = m: LogMessage | m.LeveledLogMessage? witness LeveledLogMessage("", TRACE)

  /** The name prefix of the operating systems whose console gets no colours. */
  const WindowsPrefix: string := "Windows"

  /** The preference a writer is constructed with when none is given. */
  const DefaultShouldUseAnsiColors: bool := true

  /** The colour decision made at construction. */
  function UseAnsiColors(osName: string, shouldUseAnsiColors: bool): (r: bool)
    ensures r <==> shouldUseAnsiColors && !(WindowsPrefix <= osName)
  {
    if WindowsPrefix <= osName then false else shouldUseAnsiColors
  }

  /** On Windows colours are off whatever the preference. */
  lemma WindowsNeverColours(osName: string, shouldUseAnsiColors: bool)
    requires WindowsPrefix <= osName
    ensures !UseAnsiColors(osName, shouldUseAnsiColors)
  {
  }

  /** Elsewhere colours follow the preference. */
  lemma OtherSystemsFollowPreference(osName: string, shouldUseAnsiColors: bool)
    requires !(WindowsPrefix <= osName)
    ensures UseAnsiColors(osName, shouldUseAnsiColors) == shouldUseAnsiColors
  {
  }

  /** The line `log` prints for one message. It differs from the message's
      text only when colours are on and the message carries a level, and then
      it is the colour transform of the message. */
  function Line(useAnsiColors: bool, colorTransform: LeveledMessage -> string, m: LogMessage): (r: string)
    ensures r != m.text ==> useAnsiColors && m.LeveledLogMessage?
    ensures useAnsiColors && m.LeveledLogMessage? ==> r == colorTransform(m)
  {
    if useAnsiColors && m.LeveledLogMessage? then colorTransform(m) else m.text
  }

  /** A plain message is printed as it is, even with colours on. */
  lemma PlainMessageUntransformed(useAnsiColors: bool, colorTransform: LeveledMessage -> string, text: string)
    ensures Line(useAnsiColors, colorTransform, LogMessage(text)) == text
  {
  }

  /** With colours on, a leveled message is printed through the colour transform. */
  lemma LeveledMessageColoured(colorTransform: LeveledMessage -> string, m: LeveledMessage)
    ensures Line(true, colorTransform, m) == colorTransform(m)
  {
  }

  /** The lines printed for a sequence of messages, one per message. */
  function Printed(useAnsiColors: bool, colorTransform: LeveledMessage -> string, ms: seq<LogMessage>): (r: seq<string>)
    ensures |r| == |ms|
    ensures forall i :: 0 <= i < |ms| ==> r[i] == Line(useAnsiColors, colorTransform, ms[i])
  {
    if ms == [] then []
    else Printed(useAnsiColors, colorTransform, ms[..|ms| - 1]) + [Line(useAnsiColors, colorTransform, ms[|ms| - 1])]
  }

  /** The text of each message, in order. */
  function Texts(ms: seq<LogMessage>): (r: seq<string>)
    ensures |r| == |ms|
    ensures forall i :: 0 <= i < |ms| ==> r[i] == ms[i].text
  {
    if ms == [] then [] else [ms[0].text] + Texts(ms[1..])
  }

  /** With colours off, the output is exactly the messages' texts. */
  lemma ColoursOffPrintsTexts(colorTransform: LeveledMessage -> string, ms: seq<LogMessage>)
    ensures Printed(false, colorTransform, ms) == Texts(ms)
  {
  }

  /** Messages that carry no level are printed verbatim, whatever the colour setting. */
  lemma PlainMessagesPrintVerbatim(useAnsiColors: bool, colorTransform: LeveledMessage -> string, ms: seq<LogMessage>)
    requires forall i :: 0 <= i < |ms| ==> ms[i].LogMessage?
    ensures Printed(useAnsiColors, colorTransform, ms) == Texts(ms)
  {
  }

  class ConsoleWriter {
    /** Decided at construction; a `val`, so no call changes it. */
    const useAnsiColors: bool
    /** The ANSI colour transform of a leveled message. */
    const colorTransform: LeveledMessage -> string
    /** The lines this writer has printed to standard output. */
    var output: seq<string>
    /** The messages this writer has been asked to log. */
    ghost var logged: seq<LogMessage>

    ghost predicate Valid()
      reads this
    {
      output == Printed(useAnsiColors, colorTransform, logged)
    }

    /** `osName` is the operating system's name as the runtime reports it. */
    constructor(osName: string, colorTransform: LeveledMessage -> string,
                shouldUseAnsiColors: bool := DefaultShouldUseAnsiColors)
      ensures Valid()
      ensures useAnsiColors == UseAnsiColors(osName, shouldUseAnsiColors)
      ensures this.colorTransform == colorTransform
      ensures logged == [] && output == []
    {
      useAnsiColors := if WindowsPrefix <= osName then false else shouldUseAnsiColors;
      this.colorTransform := colorTransform;
      output := [];
      logged := [];
    }

    /** Prints one line: the colour-transformed message when colours are on
        and the message carries a level, the message itself otherwise. */
    method Log(message: LogMessage)
      requires Valid()
      modifies this
      ensures Valid()
      ensures logged == old(logged) + [message]
      ensures output == old(output) + [Line(useAnsiColors, colorTransform, message)]
    {
      if useAnsiColors && message.LeveledLogMessage? {
        output := output + [colorTransform(message)];
      } else {
        output := output + [message.text];
      }
      logged := logged + [message];
    }
  }

  /** A writer built on Windows has printed, over its whole history, exactly
      the texts of the messages it was given, whatever the preference. */
  lemma WindowsWriterPrintsTexts(w: ConsoleWriter, osName: string, shouldUseAnsiColors: bool)
    requires w.Valid()
    requires WindowsPrefix <= osName
    requires w.useAnsiColors == UseAnsiColors(osName, shouldUseAnsiColors)
    ensures w.output == Texts(w.logged)
  {
    ColoursOffPrintsTexts(w.colorTransform, w.logged);
  }

  /** A writer built without a preference on a system other than Windows
      uses colours. */
  method DefaultWriterColours(osName: string, colorTransform: LeveledMessage -> string) returns (colours: bool)
    requires !(WindowsPrefix <= osName)
    ensures colours
  {
    var writer := new ConsoleWriter(osName, colorTransform);
    colours := writer.useAnsiColors;
  }

  /** On Windows, whatever the preference, every logged message is printed
      as its plain text. */
  method WindowsSession(osName: string, colorTransform: LeveledMessage -> string, shouldUseAnsiColors: bool,
                        first: LogMessage, second: LogMessage) returns (output: seq<string>)
    requires WindowsPrefix <= osName
    ensures output == [first.text, second.text]
  {
    var writer := new ConsoleWriter(osName, colorTransform, shouldUseAnsiColors);
    writer.Log(first);
    writer.Log(second);
    output := writer.output;
  }
}
