/** The parts of Go's `strings` and `strconv` packages that the core relies on.
    Go strings are byte sequences holding UTF-8; here a string is a sequence of code points. */
module Strings {
  import opened Wrappers
  import opened GoInt

  /** `strings.HasPrefix`. */
  predicate HasPrefix(s: string, prefix: string) {
    |prefix| <= |s| && s[..|prefix|] == prefix
  }

  /** `strings.Contains`. */
  predicate Contains(s: string, sub: string)
    decreases |s|
  {
    HasPrefix(s, sub) || (|s| > 0 && Contains(s[1..], sub))
  }

  /** A string holding `sub` somewhere contains it. */
  lemma {:induction false} ContainsAt(before: string, sub: string, after: string)
    ensures Contains(before + sub + after, sub)
    decreases |before|
  {
    var s := before + sub + after;
    if before == [] {
      assert s[..|sub|] == sub;
    } else {
      assert s[1..] == before[1..] + sub + after;
      ContainsAt(before[1..], sub, after);
    }
  }

  /** A string that contains `sub` has an occurrence of it somewhere. */
  lemma {:induction false} ContainsWitness(s: string, sub: string) returns (i: nat)
    requires Contains(s, sub)
    ensures i + |sub| <= |s| && s[i..i + |sub|] == sub
    decreases |s|
  {
    if HasPrefix(s, sub) {
      i := 0;
    } else {
      var j := ContainsWitness(s[1..], sub);
      i := j + 1;
      assert s[i..i + |sub|] == s[1..][j..j + |sub|];
    }
  }

  /** A string never contains anything longer than itself. */
  lemma {:induction false} ContainsTooLong(s: string, sub: string)
    requires |sub| > |s|
    ensures !Contains(s, sub)
    decreases |s|
  {
    if |s| > 0 {
      ContainsTooLong(s[1..], sub);
    }
  }

  /** `unicode.IsSpace`, the test `strings.TrimSpace` applies to each code point. */
  predicate IsSpace(c: char) {
    || c == '\t' || c == '\n' || c == '\U{0B}' || c == '\U{0C}' || c == '\r' || c == ' '
    || c == '\U{85}' || c == '\U{A0}' || c == '\U{1680}'
    || ('\U{2000}' <= c <= '\U{200A}')
    || c == '\U{2028}' || c == '\U{2029}' || c == '\U{202F}' || c == '\U{205F}' || c == '\U{3000}'
  }

  /** Drops the leading white space of `s`. */
  function TrimLeft(s: string): (r: string)
    ensures |r| <= |s| && r == s[|s| - |r|..]
    ensures forall i :: 0 <= i < |s| - |r| ==> IsSpace(s[i])
    ensures |r| > 0 ==> !IsSpace(r[0])
    decreases |s|
  {
    if |s| > 0 && IsSpace(s[0]) then TrimLeft(s[1..]) else s
  }

  /** Drops the trailing white space of `s`. */
  function TrimRight(s: string): (r: string)
    ensures |r| <= |s| && r == s[..|r|]
    ensures forall i :: |r| <= i < |s| ==> IsSpace(s[i])
    ensures |r| > 0 ==> !IsSpace(r[|r| - 1])
    decreases |s|
  {
    if |s| > 0 && IsSpace(s[|s| - 1]) then TrimRight(s[..|s| - 1]) else s
  }

  /** `strings.TrimSpace`: `s` with its leading and trailing white space removed. */
  function TrimSpace(s: string): (r: string)
  {
    TrimRight(TrimLeft(s))
  }

  /** What `TrimSpace` keeps is a run of `s` with only white space around it, and it
      starts and ends with a character that is not white space. */
  lemma TrimSpaceShape(s: string)
    ensures var r, i := TrimSpace(s), |s| - |TrimLeft(s)|;
      && i + |r| <= |s| && s[i..i + |r|] == r
      && (forall k :: 0 <= k < i ==> IsSpace(s[k]))
      && (forall k :: i + |r| <= k < |s| ==> IsSpace(s[k]))
      && (|r| > 0 ==> !IsSpace(r[0]) && !IsSpace(r[|r| - 1]))
  {
    var l := TrimLeft(s);
    var r := TrimRight(l);
    var i := |s| - |l|;
    assert l == s[i..];
    assert r == l[..|r|];
    assert s[i..i + |r|] == r;
    forall k | i + |r| <= k < |s| ensures IsSpace(s[k]) {
      assert s[k] == l[k - i];
    }
    if |r| > 0 {
      assert r[0] == l[0];
    }
  }

  /** Trimming twice is trimming once. */
  lemma {:induction false} TrimSpaceIdempotent(s: string)
    ensures TrimSpace(TrimSpace(s)) == TrimSpace(s)
  {
    var r := TrimSpace(s);
    var l := TrimLeft(s);
    assert r == l[..|r|];
    if |r| > 0 {
      assert r[0] == l[0];
    }
    assert TrimLeft(r) == r;
    TrimRightFixed(r);
  }

  lemma TrimRightFixed(s: string)
    requires |s| == 0 || !IsSpace(s[|s| - 1])
    ensures TrimRight(s) == s
  {
  }

  /** `strings.Split(s, sep)` for a one-character separator: never empty, and `n`
      separators give `n + 1` parts. */
  function Split(s: string, sep: char): (parts: seq<string>)
    ensures |parts| >= 1
    decreases |s|
  {
    if |s| == 0 then [""]
    else
      var rest := Split(s[1..], sep);
      if s[0] == sep then [""] + rest
      else [[s[0]] + rest[0]] + rest[1..]
  }

  /** The text before the first `sep`, or all of `s` when there is none: the first
      element of `Split(s, sep)`. */
  function TakeUntil(s: string, sep: char): (r: string)
    ensures sep !in r && r <= s
    ensures |r| < |s| ==> s[|r|] == sep
    decreases |s|
  {
    if |s| == 0 || s[0] == sep then "" else [s[0]] + TakeUntil(s[1..], sep)
  }

  /** The first part of a split is the text before the first separator. */
  lemma {:induction false} SplitFirst(s: string, sep: char)
    ensures Split(s, sep)[0] == TakeUntil(s, sep)
    decreases |s|
  {
    if |s| > 0 && s[0] != sep {
      SplitFirst(s[1..], sep);
    }
  }

  /** A split yields more than one part exactly when the separator occurs. */
  lemma {:induction false} SplitCount(s: string, sep: char)
    ensures |Split(s, sep)| > 1 <==> sep in s
    decreases |s|
  {
    if |s| > 0 {
      SplitCount(s[1..], sep);
      assert sep in s <==> s[0] == sep || sep in s[1..];
    }
  }

  /** The last part of a split is the text after the last separator. */
  lemma {:induction false} SplitLast(before: string, sep: char, after: string)
    requires sep !in after
    ensures var parts := Split(before + [sep] + after, sep);
      |parts| > 1 && parts[|parts| - 1] == after
    decreases |before|
  {
    var s := before + [sep] + after;
    SplitCount(s, sep);
    if before == [] {
      assert s[1..] == after;
      SplitNone(after, sep);
    } else {
      assert s[1..] == before[1..] + [sep] + after;
      SplitLast(before[1..], sep, after);
    }
  }

  /** Without a separator the split is the whole string. */
  lemma SplitNone(s: string, sep: char)
    requires sep !in s
    ensures Split(s, sep) == [s]
  {
    SplitCount(s, sep);
    SplitFirst(s, sep);
    TakeUntilAll(s, sep);
  }

  lemma {:induction false} TakeUntilAll(s: string, sep: char)
    requires sep !in s
    ensures TakeUntil(s, sep) == s
    decreases |s|
  {
    if |s| > 0 {
      TakeUntilAll(s[1..], sep);
    }
  }

  /** The text before a separator that `before` does not hold is `before`. */
  lemma {:induction false} TakeUntilFirst(before: string, sep: char, after: string)
    requires sep !in before
    ensures TakeUntil(before + [sep] + after, sep) == before
    decreases |before|
  {
    if before != [] {
      assert (before + [sep] + after)[1..] == before[1..] + [sep] + after;
      TakeUntilFirst(before[1..], sep, after);
    }
  }

  // ----- decimal numbers: strconv.Itoa and strconv.Atoi -----

  predicate IsDigit(c: char) { '0' <= c <= '9' }

  predicate AllDigits(s: string) { forall i :: 0 <= i < |s| ==> IsDigit(s[i]) }

  function DigitChar(d: nat): char
    requires d < 10
  {
    "0123456789"[d]
  }

  /** The value of a run of decimal digits. */
  function DigitsValue(s: string): nat
    requires AllDigits(s)
    decreases |s|
  {
    if s == [] then 0
    else DigitsValue(s[..|s| - 1]) * 10 + (s[|s| - 1] as int - '0' as int)
  }

  /** The decimal digits of `n`, without leading zeros. */
  function NatToString(n: nat): (s: string)
    decreases n
  {
    if n < 10 then [DigitChar(n)] else NatToString(n / 10) + [DigitChar(n % 10)]
  }

  /** `strconv.Itoa`. */
  function IntToString(i: int): (s: string)
  {
    if i < 0 then "-" + NatToString(-i) else NatToString(i)
  }

  /** `strconv.Atoi` on a 64-bit platform: an optional sign, then one or more decimal
      digits, and a value that fits in 64 bits; anything else is an error. */
  function ParseInt(s: string): (r: Option<int>)
    ensures r.Some? ==> -0x8000_0000_0000_0000 <= r.value < 0x8000_0000_0000_0000
  {
    if |s| == 0 then None
    else
      var digits := if s[0] == '-' || s[0] == '+' then s[1..] else s;
      if |digits| == 0 || !AllDigits(digits) then None
      else
        var n: int := DigitsValue(digits);
        var v := if s[0] == '-' then -n else n;
        if -0x8000_0000_0000_0000 <= v < 0x8000_0000_0000_0000 then Some(v) else None
  }

  /** The digits of `n` are decimal digits that read back as `n`. */
  lemma {:induction false} NatToStringDigits(n: nat)
    ensures |NatToString(n)| >= 1 && AllDigits(NatToString(n))
    ensures DigitsValue(NatToString(n)) == n
    decreases n
  {
    if n >= 10 {
      NatToStringDigits(n / 10);
      var s := NatToString(n);
      assert s[..|s| - 1] == NatToString(n / 10);
    }
  }

  /** `strconv.Atoi(strconv.Itoa(i)) == i` for every 64-bit `i`. */
  lemma ParseIntRoundTrip(i: Int64)
    ensures ParseInt(IntToString(i)) == Some(i)
  {
    var n: int := i;
    if n < 0 {
      var d := NatToString(-n);
      NatToStringDigits(-n);
      assert IntToString(i) == "-" + d;
      ParseNegative(d);
      assert 0 - DigitsValue(d) == n;
    } else {
      var d := NatToString(n);
      NatToStringDigits(n);
      assert IntToString(i) == d;
      ParseUnsigned(d);
    }
  }

  lemma ParseUnsigned(s: string)
    requires |s| >= 1 && AllDigits(s) && DigitsValue(s) < 0x8000_0000_0000_0000
    ensures ParseInt(s) == Some(DigitsValue(s))
  {
    assert IsDigit(s[0]);
  }

  lemma ParseNegative(d: string)
    requires |d| >= 1 && AllDigits(d) && DigitsValue(d) <= 0x8000_0000_0000_0000
    ensures ParseInt("-" + d) == Some(0 - DigitsValue(d))
  {
    assert ("-" + d)[1..] == d;
  }

  /** No decimal rendering of an integer contains the character `c` unless it is a digit
      or a minus sign. */
  lemma IntToStringChars(i: int, c: char)
    requires !IsDigit(c) && c != '-'
    ensures c !in IntToString(i)
  {
    if i < 0 {
      NatToStringDigits(-i);
    } else {
      NatToStringDigits(i);
    }
  }

  // ----- strconv.Quote -----

  /** A lower-case hexadecimal digit. */
  function HexDigit(d: nat): char
    requires d < 16
  {
    "0123456789abcdef"[d]
  }

  /** How `strconv.Quote` writes one character: a quote or backslash gets a backslash,
      printable ASCII stays, the seven C escapes are named, other ASCII control characters
      become `\x` and two hex digits, and a character beyond ASCII is copied. */
  function QuotedChar(c: char): (r: string)
    ensures |r| >= 1
    ensures r == [c] <==> (' ' <= c <= '~' && c != '"' && c != '\\') || c as int >= 0x80
  {
    var n := c as int;
    if c == '"' || c == '\\' then ['\\', c]
    else if ' ' <= c <= '~' then [c]
    else if n == 7 then "\\a"
    else if n == 8 then "\\b"
    else if n == 12 then "\\f"
    else if n == 10 then "\\n"
    else if n == 13 then "\\r"
    else if n == 9 then "\\t"
    else if n == 11 then "\\v"
    else if n < 0x80 then "\\x" + [HexDigit(n / 16), HexDigit(n % 16)]
    else [c]
  }

  function QuotedChars(s: string): string {
    if s == [] then [] else QuotedChar(s[0]) + QuotedChars(s[1..])
  }

  /** `strconv.Quote(s)`: a double-quoted Go string literal for `s`. */
  function QuotedLiteral(s: string): string {
    "\"" + QuotedChars(s) + "\""
  }

  /** Printable ASCII without a quote or a backslash. */
  predicate PlainText(s: string) {
    forall i :: 0 <= i < |s| ==> ' ' <= s[i] <= '~' && s[i] != '"' && s[i] != '\\'
  }

  /** Quoting plain text only adds the surrounding quotes. */
  lemma {:induction false} PlainQuoted(s: string)
    requires PlainText(s)
    ensures QuotedLiteral(s) == "\"" + s + "\""
  {
    PlainChars(s);
  }

  lemma {:induction false} PlainChars(s: string)
    requires PlainText(s)
    ensures QuotedChars(s) == s
  {
    if s != [] {
      assert PlainText(s[1..]) by {
        forall i | 0 <= i < |s| - 1 ensures ' ' <= s[1..][i] <= '~' && s[1..][i] != '"' && s[1..][i] != '\\' {
          assert s[1..][i] == s[i + 1];
        }
      }
      PlainChars(s[1..]);
      assert QuotedChar(s[0]) == [s[0]];
    }
  }

  /** A quote inside the text is escaped, as `strconv.Quote` does for `a"b`. */
  lemma QuoteEscapesQuote(t: string)
    requires t == "a\"b"
    ensures QuotedLiteral(t) == "\"a\\\"b\""
  {
    assert t[1..][1..] == "b";
    assert QuotedChars(t[1..][1..]) == "b";
    assert QuotedChars(t[1..]) == "\\\"b";
  }

  /** The longest run of decimal digits that starts `t`. */
  function LeadingDigits(t: string): (p: string)
    ensures AllDigits(p) && |p| <= |t| && p == t[..|p|]
    ensures |p| < |t| ==> !IsDigit(t[|p|])
  {
    if t == [] || !IsDigit(t[0]) then []
    else [t[0]] + LeadingDigits(t[1..])
  }

  /** Digits followed by a character that is not one are exactly the leading digits. */
  lemma {:induction false} LeadingDigitsOf(p: string, c: char, rest: string)
    requires AllDigits(p) && !IsDigit(c)
    ensures LeadingDigits(p + [c] + rest) == p
    decreases |p|
  {
    var t := p + [c] + rest;
    if p == [] {
      assert t[0] == c;
    } else {
      assert IsDigit(t[0]);
      assert t[1..] == p[1..] + [c] + rest;
      LeadingDigitsOf(p[1..], c, rest);
      assert p == [p[0]] + p[1..];
    }
  }
}
