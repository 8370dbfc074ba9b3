/** The part of Go's `encoding/json` that `triggerToast` uses: objects of strings and
    integers, written with keys in sorted order and strings escaped HTML-safely. */
module Json {
  import opened Wrappers
  import opened Strings

  datatype Json = JString(s: string) | JInt(i: int) | JObject(members: seq<(string, Json)>)

  const HexDigits: string := "0123456789abcdef"

  /** How `json.Marshal` writes one code point inside a string literal. */
  function EscapeChar(c: char): (e: string)
    ensures |e| >= 1
  {
    if c == '"' then "\\\""
    else if c == '\\' then "\\\\"
    else if c == '\n' then "\\n"
    else if c == '\r' then "\\r"
    else if c == '\t' then "\\t"
    else if c == '\U{08}' then "\\b"
    else if c == '\U{0C}' then "\\f"
    else if c < ' ' then "\\u00" + [HexDigits[c as int / 16], HexDigits[c as int % 16]]
    else if c == '<' then "\\u003c"
    else if c == '>' then "\\u003e"
    else if c == '&' then "\\u0026"
    else if c == '\U{2028}' then "\\u2028"
    else if c == '\U{2029}' then "\\u2029"
    else [c]
  }

  function Escape(s: string): string
    decreases |s|
  {
    if s == [] then "" else EscapeChar(s[0]) + Escape(s[1..])
  }

  /** A string literal. */
  function Quote(s: string): string {
    "\"" + Escape(s) + "\""
  }

  /** `json.Marshal` of a value whose object members are already in key order. */
  function Marshal(j: Json): string
    decreases j, 1, 0
  {
    match j
    case JString(s) => Quote(s)
    case JInt(i) => IntToString(i)
    case JObject(members) => "{" + MarshalMembers(j, 0) + "}"
  }

  /** The members of `obj` from index `from` on, separated by commas. */
  function MarshalMembers(obj: Json, from: nat): string
    requires obj.JObject?
    decreases obj, 0, |obj.members| - from
  {
    if from >= |obj.members| then ""
    else
      var m := obj.members[from];
      assert m in obj.members;
      Quote(m.0) + ":" + Marshal(m.1)
      + (if from + 1 < |obj.members| then "," else "") + MarshalMembers(obj, from + 1)
  }

  /** A member as `Marshal` writes it. */
  function MemberText(key: string, value: string): string {
    Quote(key) + ":" + value
  }

  /** Writing the members from `from` on: the member at `from`, a comma unless it is the last,
      then the rest. */
  lemma MembersStep(obj: Json, from: nat)
    requires obj.JObject? && from < |obj.members|
    ensures MarshalMembers(obj, from) ==
      MemberText(obj.members[from].0, Marshal(obj.members[from].1))
      + (if from + 1 < |obj.members| then "," else "") + MarshalMembers(obj, from + 1)
  {
  }

  /** The byte-wise order `encoding/json` sorts object keys in. */
  predicate KeyLess(a: string, b: string) {
    (|a| < |b| && b[..|a|] == a) ||
    (exists i :: 0 <= i < |a| && i < |b| && a[..i] == b[..i] && a[i] < b[i])
  }

  predicate SortedKeys(members: seq<(string, Json)>) {
    forall i, j :: 0 <= i < j < |members| ==> KeyLess(members[i].0, members[j].0)
  }

  function HexValue(c: char): Option<int> {
    if '0' <= c <= '9' then Some(c as int - '0' as int)
    else if 'a' <= c <= 'f' then Some(c as int - 'a' as int + 10)
    else if 'A' <= c <= 'F' then Some(c as int - 'A' as int + 10)
    else None
  }

  /** The code point four hex digits name, when they name one. */
  function Hex4(h: string): Option<char>
    requires |h| == 4
  {
    var a, b, c, d := HexValue(h[0]), HexValue(h[1]), HexValue(h[2]), HexValue(h[3]);
    if a.None? || b.None? || c.None? || d.None? then None
    else
      var v := a.value * 4096 + b.value * 256 + c.value * 16 + d.value;
      if 0xD800 <= v < 0xE000 then None else Some(v as char)
  }

  /** Reads the inside of a JSON string literal back; `None` for a malformed escape. */
  function Unescape(t: string): Option<string>
    decreases |t|
  {
    if t == [] then Some("")
    else if t[0] != '\\' then
      match Unescape(t[1..]) case None => None case Some(r) => Some([t[0]] + r)
    else if |t| < 2 then None
    else
      var simple := if t[1] == '"' then Some('"') else if t[1] == '\\' then Some('\\')
        else if t[1] == '/' then Some('/') else if t[1] == 'n' then Some('\n')
        else if t[1] == 'r' then Some('\r') else if t[1] == 't' then Some('\t')
        else if t[1] == 'b' then Some('\U{08}') else if t[1] == 'f' then Some('\U{0C}') else None;
      if simple.Some? then
        match Unescape(t[2..]) case None => None case Some(r) => Some([simple.value] + r)
      else if t[1] == 'u' && |t| >= 6 && Hex4(t[2..6]).Some? then
        match Unescape(t[6..]) case None => None case Some(r) => Some([Hex4(t[2..6]).value] + r)
      else None
  }

  /** Reading one escaped code point back gives the code point. */
  lemma UnescapeChar(c: char, rest: string)
    ensures Unescape(EscapeChar(c) + rest) ==
      match Unescape(rest) case None => None case Some(r) => Some([c] + r)
  {
    var e := EscapeChar(c);
    var t := e + rest;
    if |e| == 1 {
      assert t[1..] == rest;
    } else if |e| == 2 {
      assert t[2..] == rest;
    } else {
      assert |e| == 6 && t[2..6] == e[2..6] && t[6..] == rest;
      if c < ' ' {
        var n := c as int;
        assert HexValue(HexDigits[n / 16]) == Some(n / 16);
        assert HexValue(HexDigits[n % 16]) == Some(n % 16);
      }
    }
  }

  /** `Unescape` undoes `Escape`: a string literal written by `Marshal` reads back as the
      string it was written from. */
  lemma {:induction false} EscapeRoundTrip(s: string)
    ensures Unescape(Escape(s)) == Some(s)
    decreases |s|
  {
    if s != [] {
      EscapeRoundTrip(s[1..]);
      UnescapeChar(s[0], Escape(s[1..]));
      assert [s[0]] + s[1..] == s;
    }
  }
}
