/** The parts of Go's `log/slog` the logger package builds on: levels, attributes and
    records. Time stamps and program counters of records are not modelled. */
module Slog {
  import opened Strings

  /** `slog.Level` values; `LevelCritical` is the logger package's own extra level. */
  const LevelDebug: int := -4
  const LevelInfo: int := 0
  const LevelWarn: int := 4
  const LevelError: int := 8
  const LevelCritical: int := 12

  /** An attribute value: a string, an integer, or a `slog.Level` stored as `any`. */
  datatype Value = VString(s: string) | VInt(n: int) | VLevel(level: int)

  datatype Attr = Attr(key: string, value: Value)

  /** A record: its level, its message and its attributes in the order they were added. */
  datatype Record = Record(level: int, message: string, attrs: seq<Attr>)

  /** `slog.Level.String()`: the name of the nearest lower named level, with the distance
      to it written as a signed number when it is not zero ("ERROR+4" for 12). */
  function LevelName(l: int): string {
    var (base, offset) :=
      if l < LevelInfo then ("DEBUG", l - LevelDebug)
      else if l < LevelWarn then ("INFO", l - LevelInfo)
      else if l < LevelError then ("WARN", l - LevelWarn)
      else ("ERROR", l - LevelError);
    if offset == 0 then base
    else if offset > 0 then base + "+" + IntToString(offset)
    else base + IntToString(offset)
  }

  /** `Value.String()`. */
  function ValueText(v: Value): string {
    match v
    case VString(s) => s
    case VInt(n) => IntToString(n)
    case VLevel(l) => LevelName(l)
  }

  /** The four named levels print as their own names; the critical level does not. */
  lemma NamedLevels()
    ensures LevelName(LevelDebug) == "DEBUG" && LevelName(LevelInfo) == "INFO"
    ensures LevelName(LevelWarn) == "WARN" && LevelName(LevelError) == "ERROR"
    ensures LevelName(LevelCritical) == "ERROR+" + IntToString(4)
  {
  }

  /** Some attribute has the key. */
  predicate HasKey(attrs: seq<Attr>, key: string) {
    exists i :: 0 <= i < |attrs| && attrs[i].key == key
  }

  /** The text of the first attribute with the key, or "" when there is none. */
  function FirstValue(attrs: seq<Attr>, key: string): string
    decreases |attrs|
  {
    if attrs == [] then ""
    else if attrs[0].key == key then ValueText(attrs[0].value)
    else FirstValue(attrs[1..], key)
  }
}
