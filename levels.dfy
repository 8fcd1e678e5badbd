/** Severity levels of the logger and their total order.

    Kotlin compares enum constants by their declaration order, so `a >= b`
    on two levels is `Ordinal(a) >= Ordinal(b)` here. */
module Levels {
  import opened Options

  /** The levels in declaration order; OFF is the sentinel above FATAL. */
  datatype LogLevel = TRACE | DEBUG | INFO | WARNING | ERROR | FATAL | OFF

  const DeclarationOrder: seq<LogLevel> := [TRACE, DEBUG, INFO, WARNING, ERROR, FATAL, OFF]

  /** The position of a level in its declaration. */
  function Ordinal(l: LogLevel): (n: nat)
    ensures n < |DeclarationOrder| && DeclarationOrder[n] == l
  {
    match l
    case TRACE => 0
    case DEBUG => 1
    case INFO => 2
    case WARNING => 3
    case ERROR => 4
    case FATAL => 5
    case OFF => 6
  }

  /** Kotlin's `a >= b` on two levels: `b` is declared no later than `a`. */
  predicate AtLeast(a: LogLevel, b: LogLevel): (r: bool)
    ensures r <==> b in DeclarationOrder[..Ordinal(a) + 1]
  {
    Ordinal(a) >= Ordinal(b)
  }

  /** Two levels with the same position are the same level. */
  lemma OrdinalInjective(a: LogLevel, b: LogLevel)
    ensures Ordinal(a) == Ordinal(b) ==> a == b
  {
  }

  /** `>=` on levels is a total order: reflexive, antisymmetric, transitive and total. */
  lemma AtLeastIsTotalOrder(a: LogLevel, b: LogLevel, c: LogLevel)
    ensures AtLeast(a, a)
    ensures AtLeast(a, b) && AtLeast(b, a) ==> a == b
    ensures AtLeast(a, b) && AtLeast(b, c) ==> AtLeast(a, c)
    ensures AtLeast(a, b) || AtLeast(b, a)
  {
  }

  /** OFF sorts above every other level. */
  lemma OffIsGreatest(l: LogLevel)
    ensures AtLeast(OFF, l)
    ensures AtLeast(l, OFF) ==> l == OFF
  {
  }

  /** The name Kotlin prints for a level: the constant's declared name. */
  function Name(l: LogLevel): (r: string)
    ensures |r| > 0
    ensures forall i :: 0 <= i < |r| ==> r[i] != ':'
  {
    match l
    case TRACE => "TRACE"
    case DEBUG => "DEBUG"
    case INFO => "INFO"
    case WARNING => "WARNING"
    case ERROR => "ERROR"
    case FATAL => "FATAL"
    case OFF => "OFF"
  }

  /** The level whose name is `s`, if any; the inverse of Name. */
  function ParseLevel(s: string): (r: Option<LogLevel>)
    ensures r.Some? ==> Name(r.value) == s
  {
    if s == "TRACE" then Some(TRACE)
    else if s == "DEBUG" then Some(DEBUG)
    else if s == "INFO" then Some(INFO)
    else if s == "WARNING" then Some(WARNING)
    else if s == "ERROR" then Some(ERROR)
    else if s == "FATAL" then Some(FATAL)
    else if s == "OFF" then Some(OFF)
    else None
  }

  /** Every level's name parses back to that level. */
  lemma ParseLevelName(l: LogLevel)
    ensures ParseLevel(Name(l)) == Some(l)
  {
  }
}
