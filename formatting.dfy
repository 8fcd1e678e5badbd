/** The value handed to a formatter, and the logger's default formatter
    `"$timestamp $level: $message"` together with the parser that inverts it. */
module Formatting {
  import opened Options
  import opened Levels

  /** What the formatter sees for one message: the rendered timestamp, the
      message's own level and its text. */
  datatype FormatterPayload = FormatterPayload(timestamp: string, level: LogLevel, message: string)

  /** The default formatter: timestamp, a space, the level's name, a colon, a space, the message. */
  function DefaultFormat(p: FormatterPayload): (r: string)
    ensures p.timestamp + " " <= r
    ensures |r| == |p.timestamp| + |Name(p.level)| + |p.message| + 3
    ensures r[|r| - |p.message| - 2..] == ": " + p.message
  {
    p.timestamp + " " + Name(p.level) + ": " + p.message
  }

  /** The index of the first `c` in `s`, or `|s|` when there is none. */
  function FirstIndexOf(s: string, c: char): (k: nat)
    ensures k <= |s|
    ensures k < |s| ==> s[k] == c
    ensures forall i :: 0 <= i < k ==> s[i] != c
  {
    if s == [] then 0
    else if s[0] == c then 0
    else 1 + FirstIndexOf(s[1..], c)
  }

  /** Reads a default-formatted line back, given the timestamp it starts with:
      the level name runs up to the first colon, and the message is everything
      after the ": " that follows it. */
  function ParseDefault(timestamp: string, line: string): (r: Option<FormatterPayload>)
    ensures r.Some? ==> r.value.timestamp == timestamp && DefaultFormat(r.value) == line
  {
    var head := timestamp + " ";
    if !(head <= line) then None
    else
      var rest := line[|head|..];
      var k := FirstIndexOf(rest, ':');
      if k + 1 < |rest| && rest[k + 1] == ' ' then
        match ParseLevel(rest[..k])
        case Some(l) =>
          assert line == head + rest[..k] + ": " + rest[k + 2..];
          Some(FormatterPayload(timestamp, l, rest[k + 2..]))
        case None => None
      else None
  }

  /** The default formatter loses nothing: its line parses back to the payload. */
  lemma {:induction false} DefaultFormatRoundTrip(p: FormatterPayload)
    ensures ParseDefault(p.timestamp, DefaultFormat(p)) == Some(p)
  {
    var head := p.timestamp + " ";
    var name := Name(p.level);
    var line := DefaultFormat(p);
    var rest := name + ": " + p.message;
    assert line == head + rest;
    assert line[|head|..] == rest;
    var k := FirstIndexOf(rest, ':');
    assert rest[|name|] == ':';
    assert k == |name|;
    assert rest[..k] == name;
    assert rest[k + 2..] == p.message;
    ParseLevelName(p.level);
  }

  /** Lines with the same timestamp are equal only when their level and
      message are: the written text identifies the message's own level. */
  lemma DefaultFormatInjective(p: FormatterPayload, q: FormatterPayload)
    requires p.timestamp == q.timestamp
    requires DefaultFormat(p) == DefaultFormat(q)
    ensures p == q
  {
    DefaultFormatRoundTrip(p);
    DefaultFormatRoundTrip(q);
  }
}
