/** The parts of Go's `net/http` and echo's response writer that the handlers rely on:
    header-name canonicalisation and a response whose status line is sent once. */
module Http {

  /** The bytes `net/textproto` accepts in a header name. */
  predicate IsTokenChar(c: char) {
    ('a' <= c <= 'z') || ('A' <= c <= 'Z') || ('0' <= c <= '9') ||
    c == '!' || c == '#' || c == '$' || c == '%' || c == '&' || c == '\'' || c == '*' ||
    c == '+' || c == '-' || c == '.' || c == '^' || c == '_' || c == '`' || c == '|' || c == '~'
  }

  function ToUpper(c: char): char {
    if 'a' <= c <= 'z' then (c as int - 32) as char else c
  }

  function ToLower(c: char): char {
    if 'A' <= c <= 'Z' then (c as int + 32) as char else c
  }

  /** Upper case at the start and after each hyphen, lower case everywhere else. */
  function Canon(k: string, upper: bool): (r: string)
    ensures |r| == |k|
    decreases |k|
  {
    if k == [] then []
    else [if upper then ToUpper(k[0]) else ToLower(k[0])] + Canon(k[1..], k[0] == '-')
  }

  /** `textproto.CanonicalMIMEHeaderKey`, which `Header.Set` applies to its key: a name
      holding a byte that is not a token byte is left as it is. */
  function CanonicalKey(k: string): (r: string)
    ensures |r| == |k|
  {
    if forall i :: 0 <= i < |k| ==> IsTokenChar(k[i]) then Canon(k, true) else k
  }

  lemma {:induction false} CanonKeepsTokens(k: string, upper: bool)
    requires forall i :: 0 <= i < |k| ==> IsTokenChar(k[i])
    ensures var r := Canon(k, upper);
      (forall i :: 0 <= i < |r| ==> IsTokenChar(r[i])) && Canon(r, upper) == r
    decreases |k|
  {
    if k != [] {
      CanonKeepsTokens(k[1..], k[0] == '-');
      var r := Canon(k, upper);
      assert r[1..] == Canon(k[1..], k[0] == '-');
      assert r[0] == '-' <==> k[0] == '-';
    }
  }

  /** Canonicalising a header name twice changes nothing more than doing it once, so
      `Header.Set` with `"hx-push-url"` and with `"Hx-Push-Url"` writes the same entry. */
  lemma CanonicalKeyIdempotent(k: string)
    ensures CanonicalKey(CanonicalKey(k)) == CanonicalKey(k)
  {
    if forall i :: 0 <= i < |k| ==> IsTokenChar(k[i]) {
      CanonKeepsTokens(k, true);
    }
  }

  /** echo's `Response`: headers being prepared, the status line and the headers as they
      were when it was sent, the body written so far, and how much of it was flushed. */
  class Response {
    var header: map<string, string>
    var status: int
    var committed: bool
    var sentHeader: map<string, string>
    var body: string
    var flushed: nat

    /** A fresh response starts with status 200, nothing sent. */
    constructor()
      ensures header == map[] && status == 200 && !committed
      ensures sentHeader == map[] && body == "" && flushed == 0
    {
      header := map[];
      status := 200;
      committed := false;
      sentHeader := map[];
      body := "";
      flushed := 0;
    }

    /** `Header().Set(key, value)`. */
    method SetHeader(key: string, value: string)
      modifies this
      ensures header == old(header)[CanonicalKey(key) := value]
      ensures status == old(status) && committed == old(committed) && sentHeader == old(sentHeader)
      ensures body == old(body) && flushed == old(flushed)
    {
      header := header[CanonicalKey(key) := value];
    }

    /** `WriteHeader(code)`: sends the status line and the headers; once the response is
        committed, a later call only logs a warning. */
    method WriteHeader(code: int)
      modifies this
      ensures committed
      ensures old(committed) ==> status == old(status) && sentHeader == old(sentHeader)
      ensures !old(committed) ==> status == code && sentHeader == old(header)
      ensures header == old(header) && body == old(body) && flushed == old(flushed)
    {
      if !committed {
        status := code;
        sentHeader := header;
        committed := true;
      }
    }

    /** `Write(s)`: commits with the current status first if nothing was sent yet. */
    method Write(s: string)
      modifies this
      ensures committed && body == old(body) + s
      ensures old(committed) ==> sentHeader == old(sentHeader)
      ensures !old(committed) ==> sentHeader == old(header)
      ensures status == old(status) && header == old(header) && flushed == old(flushed)
    {
      if !committed {
        WriteHeader(status);
      }
      body := body + s;
    }

    /** `Flush()`: everything written so far reaches the client. */
    method Flush()
      modifies this
      ensures flushed == |body|
      ensures header == old(header) && status == old(status) && committed == old(committed)
      ensures sentHeader == old(sentHeader) && body == old(body)
    {
      flushed := |body|;
    }
  }
}
