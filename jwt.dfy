/** Claim sets and parser settings shared by the two token packages (auth/jwt.go and
    sign/jwt.go). Claim names are the registered ones of section 4.1 of RFC 7519: "iss"
    (4.1.1), "sub" (4.1.2), "aud" (4.1.3), "exp" (4.1.4) and "iat" (4.1.6). Signing and
    verification are EdDSA operations outside this model. */
module Jwt {
  import opened Wrappers
  import Errors

  /** A claim value: a string, a number of seconds, or a map of extra strings. */
  datatype Claim = CString(s: string) | CInt(n: int) | CStringMap(m: map<string, string>)

  type Claims = map<string, Claim>

  /** Durations and instants are counted in nanoseconds, as Go's `time` package does. */
  const Second: int := 1_000_000_000
  const Minute: int := 60 * Second

  /** `Time.Unix()`: whole seconds, rounded down. */
  function Unix(ns: int): int {
    ns / Second
  }

  /** A duration that is a whole number of seconds moves `Unix` by exactly that many. */
  lemma UnixShift(ns: int, seconds: int)
    ensures Unix(ns + seconds * Second) == Unix(ns) + seconds
  {
    var q := ns / Second;
    var r := ns % Second;
    assert ns == q * Second + r && 0 <= r < Second;
    assert ns + seconds * Second == (q + seconds) * Second + r;
  }

  /** A positive duration never moves `Unix` backwards. */
  lemma UnixMonotone(ns: int, d: int)
    requires d > 0
    ensures Unix(ns) <= Unix(ns + d)
  {
  }

  /** What `jwt.NewParser` is configured with. */
  datatype ParserConfig = ParserConfig(
    validMethods: seq<string>,
    issuedAtChecked: bool,
    expirationRequired: bool,
    leeway: int,
    issuer: string)

  /** The result of a signer: the compact token, or its error. */
  type Signer = Claims -> Result<string, Errors.Error>
}
