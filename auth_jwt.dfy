/** Session and login-link tokens (auth/jwt.go): the claim set a token is signed with, and
    how a verification failure is reported. */
module AuthJwt {
  import opened Wrappers
  import opened Errors
  import opened Jwt

  /** `auth.ErrTokenExpired` */
  const ErrTokenExpired: Error := Sentinel("auth.ErrTokenExpired", "*errors.errorString", "token is expired")
  /** `jwt.ErrTokenExpired` of the token library */
  const LibTokenExpired: Error := Sentinel("jwt.ErrTokenExpired", "*errors.errorString", "token is expired")

  /** EdDSA only, "iat" checked, "exp" required, ten seconds of leeway, issuer "go-form". */
  const Parser: ParserConfig := ParserConfig(["EdDSA"], true, true, 10 * Second, "go-form")

  /** What the library's verification of a token gives: the claims it decoded (filled in
      even when a later check fails), and its error. */
  datatype Verified = Verified(claims: Claims, err: Option<Error>)

  /** `ParseJwt`: an expired token still yields its claims, with `ErrTokenExpired`; any other
      failure yields no claims and the library's error. */
  function ParseJwt(token: string, verify: string -> Verified): (r: (Option<Claims>, Option<Error>))
    ensures var v := verify(token);
      (v.err.Some? && Is(v.err.value, LibTokenExpired) ==> r == (Some(v.claims), Some(ErrTokenExpired))) &&
      (v.err.Some? && !Is(v.err.value, LibTokenExpired) ==> r == (None, v.err)) &&
      (v.err.None? ==> r == (Some(v.claims), None))
  {
    var v := verify(token);
    if v.err.Some? && Is(v.err.value, LibTokenExpired) then (Some(v.claims), Some(ErrTokenExpired))
    else if v.err.Some? then (None, v.err)
    else (Some(v.claims), None)
  }

  /** Claims are returned exactly when the token verified or merely expired. */
  lemma ParseJwtClaimsPresent(token: string, verify: string -> Verified)
    ensures var v := verify(token); var r := ParseJwt(token, verify);
      r.0.Some? <==> (v.err.None? || Is(v.err.value, LibTokenExpired))
    ensures var r := ParseJwt(token, verify); r.1.None? ==> r.0.Some?
  {
  }

  /** `JwtOptions`; `validFor` is a duration in nanoseconds, `extraClaims` nil or a map. */
  datatype JwtOptions = JwtOptions(
    audience: string, subject: string, validFor: int, extraClaims: Option<map<string, string>>)

  /** How long a token lives: its own duration when positive, five minutes otherwise. */
  function Lifetime(o: JwtOptions): (d: int)
    ensures d > 0
    ensures o.validFor > 0 ==> d == o.validFor
  {
    if o.validFor > 0 then o.validFor else 5 * Minute
  }

  /** The claim set of `o` issued at `now`. */
  function Claims(o: JwtOptions, now: int): (c: Claims)
    ensures c.Keys == {"iss", "iat", "exp"} + (if o.audience != "" then {"aud"} else {})
      + (if o.subject != "" then {"sub"} else {}) + (if o.extraClaims.Some? then {"extra"} else {})
    ensures c["iss"] == CString("go-form") && c["iat"] == CInt(Unix(now))
    ensures c["exp"] == CInt(Unix(now + Lifetime(o)))
    ensures "aud" in c ==> c["aud"] == CString(o.audience)
    ensures "sub" in c ==> c["sub"] == CString(o.subject)
    ensures "extra" in c ==> c["extra"] == CStringMap(o.extraClaims.value)
  {
    var base := map["iss" := CString("go-form"), "iat" := CInt(Unix(now))];
    var withAud := if o.audience != "" then base["aud" := CString(o.audience)] else base;
    var withSub := if o.subject != "" then withAud["sub" := CString(o.subject)] else withAud;
    var withExtra := if o.extraClaims.Some? then withSub["extra" := CStringMap(o.extraClaims.value)] else withSub;
    withExtra["exp" := CInt(Unix(now + Lifetime(o)))]
  }

  /** `claims()`: fills the map one conditional entry at a time. */
  method ClaimsOf(o: JwtOptions, now: int) returns (claims: Claims)
    ensures claims == Claims(o, now)
  {
    claims := map["iss" := CString("go-form"), "iat" := CInt(Unix(now))];
    if o.audience != "" {
      claims := claims["aud" := CString(o.audience)];
    }
    if o.subject != "" {
      claims := claims["sub" := CString(o.subject)];
    }
    if o.extraClaims.Some? {
      claims := claims["extra" := CStringMap(o.extraClaims.value)];
    }
    if o.validFor > 0 {
      claims := claims["exp" := CInt(Unix(now + o.validFor))];
    } else {
      claims := claims["exp" := CInt(Unix(now + 5 * Minute))];
    }
  }

  /** A token without a duration expires exactly five minutes after it was issued; one whose
      duration is a whole number of seconds expires exactly that much later. */
  lemma ExpiryAfterIssue(o: JwtOptions, now: int)
    ensures o.validFor <= 0 ==> Claims(o, now)["exp"].n == Claims(o, now)["iat"].n + 300
    ensures forall s :: s > 0 && o.validFor == s * Second ==>
      Claims(o, now)["exp"].n == Claims(o, now)["iat"].n + s
    ensures Claims(o, now)["iat"].n <= Claims(o, now)["exp"].n
  {
    UnixShift(now, 300);
    forall s | s > 0 && o.validFor == s * Second
      ensures Claims(o, now)["exp"].n == Claims(o, now)["iat"].n + s
    {
      UnixShift(now, s);
    }
    UnixMonotone(now, Lifetime(o));
  }

  /** `CreateJwt`: nil options sign an empty claim set; a signing failure is wrapped. */
  function CreateJwt(options: Option<JwtOptions>, now: int, sign: Signer): (r: Result<string, Error>)
    ensures var claims := if options.Some? then Claims(options.value, now) else map[];
      match sign(claims)
      case Ok(token) => r == Ok(token)
      case Err(e) => r == Err(Wrapped("failed to sign jwt: ", e))
  {
    var claims := if options.Some? then Claims(options.value, now) else map[];
    match sign(claims)
    case Ok(token) => Ok(token)
    case Err(e) => Err(Wrapped("failed to sign jwt: ", e))
  }
}
