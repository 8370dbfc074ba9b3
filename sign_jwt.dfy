/** Short-lived signing tokens (sign/jwt.go): a fixed ten-minute lifetime and no audience. */
module SignJwt {
  import opened Wrappers
  import opened Errors
  import opened Jwt

  /** EdDSA only, "iat" checked, "exp" required, one minute of leeway, issuer "go-form". */
  const Parser: ParserConfig := ParserConfig(["EdDSA"], true, true, Minute, "go-form")

  /** `JwtOptions` */
  datatype JwtOptions = JwtOptions(subject: string)

  /** The claim set of `o` issued at `now`. */
  function Claims(o: JwtOptions, now: int): (c: Claims)
    ensures c.Keys == {"iss", "iat", "exp"} + (if o.subject != "" then {"sub"} else {})
    ensures c["iss"] == CString("go-form") && c["iat"] == CInt(Unix(now))
    ensures c["exp"] == CInt(Unix(now + 10 * Minute))
    ensures "sub" in c ==> c["sub"] == CString(o.subject)
  {
    var base := map["iss" := CString("go-form"), "iat" := CInt(Unix(now)),
                    "exp" := CInt(Unix(now + 10 * Minute))];
    if o.subject != "" then base["sub" := CString(o.subject)] else base
  }

  /** `claims()`: the three fixed entries, then the subject when there is one. */
  method ClaimsOf(o: JwtOptions, now: int) returns (claims: Claims)
    ensures claims == Claims(o, now)
  {
    claims := map["iss" := CString("go-form"), "iat" := CInt(Unix(now)),
                  "exp" := CInt(Unix(now + 10 * Minute))];
    if o.subject != "" {
      claims := claims["sub" := CString(o.subject)];
    }
  }

  /** Every signing token expires exactly ten minutes after it was issued, and none has an
      audience. */
  lemma TenMinuteLifetime(o: JwtOptions, now: int)
    ensures Claims(o, now)["exp"].n == Claims(o, now)["iat"].n + 600
    ensures "aud" !in Claims(o, now)
  {
    UnixShift(now, 600);
  }

  /** `CreateJwt`: nil options sign an empty claim set; a signing failure is wrapped. */
  function CreateJwt(options: Option<JwtOptions>, now: int, sign: Signer): (r: Result<string, Error>)
    ensures var claims := if options.Some? then Claims(options.value, now) else map[];
      match sign(claims)
      case Ok(token) => r == Ok(token)
      case Err(e) => r == Err(Wrapped("failed to sign jwt: ", e))
  {
    var claims := if options.Some? then Claims(options.value, now) else map[];
    match sign(claims)
    case Ok(token) => Ok(token)
    case Err(e) => Err(Wrapped("failed to sign jwt: ", e))
  }

  /** `ParseJwt` hands the library's answer back unchanged. */
  function ParseJwt(token: string, verify: string -> Result<Claims, Error>): (r: Result<Claims, Error>)
    ensures r == verify(token)
  {
    verify(token)
  }
}
