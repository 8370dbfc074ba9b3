/** The session cookie and the login link (handlers.go): reading the signed-in user's id
    from the "goform_auth" cookie, issuing and clearing that cookie, and the checks a login
    link passes before it signs a user in. Signing and verifying tokens are oracles; the
    clock is the instant `now`. */
module HandlersSession {
  import opened Wrappers
  import opened GoInt
  import opened Strings
  import opened Errors
  import opened Jwt
  import opened AuthJwt

  const CookieName: string := "goform_auth"
  const Hour: int := 60 * Minute
  /** A week in seconds: how long the browser keeps the session cookie. */
  const Week: int := 3600 * 24 * 7

  /** The `http.Cookie` fields the handlers set. */
  datatype Cookie = Cookie(name: string, value: string, maxAge: int, secure: bool, httpOnly: bool)

  /** The cookies a client sends back, by name. */
  type Jar = map<string, string>

  /** How a client keeps a `Set-Cookie`: a negative `MaxAge` goes out as "Max-Age=0", which
      removes the cookie (section 5.2.2 of RFC 6265); any other cookie replaces the value
      stored under its name. */
  function Store(jar: Jar, c: Cookie): (r: Jar)
    ensures c.maxAge < 0 ==> c.name !in r
    ensures c.maxAge >= 0 ==> c.name in r && r[c.name] == c.value
    ensures forall n :: n != c.name ==> (n in r <==> n in jar)
    ensures forall n :: n != c.name && n in jar ==> r[n] == jar[n]
  {
    if c.maxAge < 0 then jar - {c.name} else jar[c.name := c.value]
  }

  /** A claim of a parsed token; indexing Go's nil map finds nothing too. */
  function ClaimOf(claims: Option<Claims>, key: string): Option<Claim> {
    if claims.Some? && key in claims.value then Some(claims.value[key]) else None
  }

  /** What `strconv.Atoi` accepts before looking at the value's size. */
  predicate DecimalSyntax(s: string) {
    |Unsigned(s)| > 0 && AllDigits(Unsigned(s))
  }

  /** The text after an optional leading sign. */
  function Unsigned(s: string): string {
    if |s| > 0 && (s[0] == '-' || s[0] == '+') then s[1..] else s
  }

  const MaxUint64: int := 0xFFFF_FFFF_FFFF_FFFF

  /** `strconv.Atoi(s)`, when it fails, fails for the value's size: either `s` is a
      well-formed decimal whose value needs more than 64 bits, or `strconv.ParseUint`,
      reading the digits after the sign one at a time, overflows 64 unsigned bits before it
      meets a character that is not a digit. (Atoi's fast path for fewer than 19 bytes
      can reach neither.) */
  predicate AtoiOutOfRange(s: string) {
    var digits := Unsigned(s);
    |digits| > 0 && (AllDigits(digits) || DigitsValue(LeadingDigits(digits)) > MaxUint64)
  }

  /** The `*strconv.NumError` of a failed `strconv.Atoi(s)`: the input is printed with
      `strconv.Quote`. */
  function AtoiError(s: string): Error {
    Opaque("*strconv.NumError",
      NumErrorText(QuotedLiteral(s), if AtoiOutOfRange(s) then "value out of range" else "invalid syntax"))
  }

  /** `NumError.Error()` for `strconv.Atoi`, given the quoted input and the reason. */
  function NumErrorText(quoted: string, reason: string): string {
    "strconv.Atoi: parsing " + quoted + ": " + reason
  }

  function Pow10(n: nat): nat {
    if n == 0 then 1 else 10 * Pow10(n - 1)
  }

  lemma {:induction false} Pow10Monotone(a: nat, b: nat)
    requires a <= b
    ensures Pow10(a) <= Pow10(b)
    decreases b
  {
    if a < b {
      Pow10Monotone(a, b - 1);
    }
  }

  lemma {:induction false} Pow10Sum(a: nat, b: nat)
    ensures Pow10(a + b) == Pow10(a) * Pow10(b)
    decreases a
  {
    if a > 0 {
      Pow10Sum(a - 1, b);
    }
  }

  /** `10^19`, the smallest power of ten above `MaxUint64 / 2`. */
  lemma Pow10Of19()
    ensures Pow10(19) == 10_000_000_000_000_000_000
  {
    assert Pow10(2) == 100;
    Pow10Sum(2, 2);
    Pow10Sum(4, 4);
    Pow10Sum(8, 8);
    Pow10Sum(16, 2);
    Pow10Sum(18, 1);
  }

  /** `n` digits are worth less than `10^n`. */
  lemma {:induction false} DigitsBelow(p: string)
    requires AllDigits(p)
    ensures DigitsValue(p) < Pow10(|p|)
    decreases |p|
  {
    if p != [] {
      DigitsBelow(p[..|p| - 1]);
    }
  }

  /** The first of `n` digits is worth `10^(n-1)` each. */
  lemma {:induction false} DigitsAtLeast(p: string)
    requires AllDigits(p) && |p| >= 1
    ensures DigitsValue(p) >= (p[0] as int - '0' as int) * Pow10(|p| - 1)
    decreases |p|
  {
    if |p| > 1 {
      var q := p[..|p| - 1];
      DigitsAtLeast(q);
      assert q[0] == p[0];
    }
  }

  /** Atoi refuses a well-formed decimal only for its size, and a malformed text of fewer
      than 20 characters for its syntax, since its leading digits cannot overflow. */
  lemma AtoiRefusesBySyntaxOrSize(s: string)
    ensures ParseInt(s).Some? ==> DecimalSyntax(s)
    ensures ParseInt(s).None? && DecimalSyntax(s) ==> AtoiOutOfRange(s)
    ensures !DecimalSyntax(s) && |s| < 20 ==> !AtoiOutOfRange(s)
  {
    if !DecimalSyntax(s) && |s| < 20 {
      ShortMalformedIsSyntax(s);
    }
  }

  /** Plain text that is not a decimal, such as a subject "abc", is printed between quotes
      as it is. */
  lemma AtoiPlainSyntaxError(s: string)
    requires PlainText(s) && !DecimalSyntax(s) && |s| < 20
    ensures Text(AtoiError(s)) == NumErrorText("\"" + s + "\"", "invalid syntax")
  {
    ShortMalformedIsSyntax(s);
    PlainErrorText(s);
  }

  lemma ShortMalformedIsSyntax(s: string)
    requires !DecimalSyntax(s) && |s| < 20
    ensures !AtoiOutOfRange(s)
  {
    var lead := LeadingDigits(Unsigned(s));
    DigitsBelow(lead);
    Pow10Monotone(|lead|, 19);
    Pow10Of19();
  }

  /** Digits that overflow 64 unsigned bits, followed by any character that is not a
      digit, make a range error: `strconv.ParseUint` reports the overflow before it reaches
      the bad character. */
  lemma AtoiRangeBeforeSyntax(p: string, c: char, rest: string)
    requires |p| > 0 && AllDigits(p) && DigitsValue(p) > MaxUint64 && !IsDigit(c)
    ensures ParseInt(p + [c] + rest).None? && !DecimalSyntax(p + [c] + rest)
    ensures AtoiOutOfRange(p + [c] + rest)
  {
    var t := p + [c] + rest;
    assert IsDigit(t[0]) && Unsigned(t) == t;
    LeadingDigitsOf(p, c, rest);
    assert t[|p|] == c;
    MalformedRefused(t);
  }

  lemma MalformedRefused(t: string)
    requires !DecimalSyntax(t)
    ensures ParseInt(t).None?
  {
  }

  /** Plain text is printed between quotes as it is. */
  lemma PlainErrorText(t: string)
    requires PlainText(t)
    ensures AtoiOutOfRange(t) ==> Text(AtoiError(t)) == NumErrorText("\"" + t + "\"", "value out of range")
    ensures !AtoiOutOfRange(t) ==> Text(AtoiError(t)) == NumErrorText("\"" + t + "\"", "invalid syntax")
  {
    PlainQuoted(t);
  }

  /** "99999999999999999999x" is refused as out of range: twenty nines overflow 64
      unsigned bits before the "x" is read. Being plain text, it is printed as it is
      (`PlainErrorText`). */
  lemma TwentyNinesOverflow(t: string)
    requires t == "99999999999999999999x"
    ensures !DecimalSyntax(t) && AtoiOutOfRange(t) && PlainText(t)
  {
    var p := t[..20];
    assert t == p + ['x'] + [];
    NinesOverflow(p);
    AtoiRangeBeforeSyntax(p, 'x', []);
  }

  lemma NinesOverflow(p: string)
    requires p == "99999999999999999999"
    ensures |p| > 0 && AllDigits(p) && DigitsValue(p) > MaxUint64
  {
    assert AllDigits(p) && p[0] == '9';
    DigitsAtLeast(p);
    Pow10Of19();
  }

  /** The input is quoted with `strconv.Quote`, so a quote inside it is escaped. */
  lemma AtoiQuotesInput(t: string)
    requires t == "a\"b"
    ensures Text(AtoiError(t)) == NumErrorText("\"a\\\"b\"", "invalid syntax")
  {
    assert !IsDigit(t[0]) && Unsigned(t) == t;
    assert LeadingDigits(t) == [];
    assert !AtoiOutOfRange(t);
    QuoteEscapesQuote(t);
  }

  /** `fmt.Errorf("invalid audience")` */
  const InvalidAudience: Error := Opaque("*errors.errorString", "invalid audience")

  /** What `tryGetUserIdFromCookie` gives: an id, an error, or a panic of the type assertion
      `claims["sub"].(string)` when the subject is missing or not a string. */
  datatype CookieUser = UserId(id: Int32) | NoUser(err: Error) | SubjectPanics

  /** `tryGetUserIdFromCookie`: the cookie must be present, its token must verify (or, when
      `allowExpired`, merely have expired), its audience must be "go-form", and its subject
      must be a decimal number, which is narrowed to `int32`. */
  function UserIdFromCookie(jar: Jar, verify: string -> Verified, allowExpired: bool): (r: CookieUser)
    ensures CookieName !in jar ==> r == NoUser(ErrNoCookie)
    ensures r.UserId? ==>
      CookieName in jar &&
      var (claims, err) := ParseJwt(jar[CookieName], verify);
      (err.None? || (allowExpired && err == Some(ErrTokenExpired))) &&
      ClaimOf(claims, "aud") == Some(CString("go-form")) &&
      ClaimOf(claims, "sub").Some? && ClaimOf(claims, "sub").value.CString? &&
      ParseInt(ClaimOf(claims, "sub").value.s).Some? &&
      r.id == ToInt32(ParseInt(ClaimOf(claims, "sub").value.s).value)
  {
    if CookieName !in jar then NoUser(ErrNoCookie)
    else
      var (claims, err) := ParseJwt(jar[CookieName], verify);
      if err.Some? && (!allowExpired || !Is(err.value, ErrTokenExpired)) then NoUser(err.value)
      else if ClaimOf(claims, "aud") != Some(CString("go-form")) then NoUser(InvalidAudience)
      else match ClaimOf(claims, "sub")
        case Some(CString(sub)) =>
          (match ParseInt(sub)
           case Some(n) => UserId(ToInt32(n))
           case None => NoUser(AtoiError(sub)))
        case _ => SubjectPanics
  }

  /** The options of a session token: audience "go-form", the user id as subject, one hour. */
  function SessionOptions(userId: int): JwtOptions {
    JwtOptions("go-form", IntToString(userId), Hour, None)
  }

  /** `setUserLoggedInCookie`: a session token in an http-only cookie kept for a week, secure
      only in production; a signing failure is returned as it is. */
  function SetUserLoggedInCookie(userId: int, isProduction: bool, now: int, sign: Signer): (r: Result<Cookie, Error>)
    ensures var token := CreateJwt(Some(SessionOptions(userId)), now, sign);
      (token.Err? ==> r == Err(token.error)) &&
      (token.Ok? ==> r == Ok(Cookie(CookieName, token.value, Week, isProduction, true)))
  {
    match CreateJwt(Some(SessionOptions(userId)), now, sign)
    case Err(e) => Err(e)
    case Ok(token) => Ok(Cookie(CookieName, token, Week, isProduction, true))
  }

  /** `clearUserLoggedInCookie`: the same cookie, empty and already expired. */
  const ClearedCookie: Cookie := Cookie(CookieName, "", -1, false, true)

  /** A verifier that gives back exactly the claims the signer signed. */
  ghost predicate Honest(sign: Signer, verify: string -> Verified) {
    forall c :: sign(c).Ok? ==> verify(sign(c).value) == Verified(c, None)
  }

  /** The decimal rendering of an integer is never empty. */
  lemma IntToStringNonEmpty(i: int)
    ensures IntToString(i) != ""
  {
    if i < 0 {
      assert |IntToString(i)| == 1 + |NatToString(-i)|;
    } else {
      NatToStringDigits(i);
    }
  }

  /** The claims of a session token name the audience and the user. */
  lemma SessionClaims(userId: int, now: int)
    ensures var c := AuthJwt.Claims(SessionOptions(userId), now);
      ClaimOf(Some(c), "aud") == Some(CString("go-form")) &&
      ClaimOf(Some(c), "sub") == Some(CString(IntToString(userId)))
  {
    IntToStringNonEmpty(userId);
  }

  /** A session cookie, once stored, reads back as the user it was issued for (narrowed to
      `int32`), whether or not expiry is allowed. */
  lemma SessionRoundTrip(jar: Jar, userId: Int64, isProduction: bool, now: int, sign: Signer,
                         verify: string -> Verified, allowExpired: bool)
    requires Honest(sign, verify)
    requires SetUserLoggedInCookie(userId, isProduction, now, sign).Ok?
    ensures var c := SetUserLoggedInCookie(userId, isProduction, now, sign).value;
      UserIdFromCookie(Store(jar, c), verify, allowExpired) == UserId(ToInt32(userId))
  {
    var claims := AuthJwt.Claims(SessionOptions(userId), now);
    var c := SetUserLoggedInCookie(userId, isProduction, now, sign).value;
    assert verify(c.value) == Verified(claims, None);
    SessionClaims(userId, now);
    ParseIntRoundTrip(userId);
  }

  /** An expired session cookie names its user only to a caller that allows expiry. */
  lemma ExpiredSession(jar: Jar, verify: string -> Verified, claims: Claims, allowExpired: bool)
    requires CookieName in jar && verify(jar[CookieName]) == Verified(claims, Some(LibTokenExpired))
    requires "aud" in claims && claims["aud"] == CString("go-form")
    requires "sub" in claims && claims["sub"].CString? && ParseInt(claims["sub"].s).Some?
    ensures allowExpired ==> UserIdFromCookie(jar, verify, true) == UserId(ToInt32(ParseInt(claims["sub"].s).value))
    ensures UserIdFromCookie(jar, verify, false) == NoUser(ErrTokenExpired)
  {
  }

  /** Logging out removes the cookie: no user can be read afterwards. */
  lemma ClearedSession(jar: Jar, verify: string -> Verified, allowExpired: bool)
    ensures UserIdFromCookie(Store(jar, ClearedCookie), verify, allowExpired) == NoUser(ErrNoCookie)
  {
  }

  // ----- the login link -----

  /** Where a signed-in user is sent: an htmx redirect (HX-Location, 204) or a 302. */
  datatype Redirect = HtmxLocation(url: string) | Found(url: string)

  /** What `HandleLoginLink` does: flag the request "Unauthenticated" and return nil, report
      an error through `e.Error`, or set the session cookie and redirect. */
  datatype LoginLinkOutcome = Unauthenticated | LoginFailed(err: Error) | LoggedIn(cookie: Cookie, redirect: Redirect)

  /** The login-link token in the "token" query parameter, "" when absent. */
  function TokenParam(query: map<string, string>): string {
    if "token" in query then query["token"] else ""
  }

  /** `HandleLoginLink`: every check that fails flags the request as unauthenticated; the
      user must exist (looked up by the `int32` id); a signing failure is reported. */
  function HandleLoginLink(query: map<string, string>, verify: string -> Verified, getUser: Int32 -> Option<Error>,
                           isProduction: bool, htmx: bool, now: int, sign: Signer): (r: LoginLinkOutcome)
    ensures TokenParam(query) == "" ==> r == Unauthenticated
    ensures r.LoginFailed? ==> exists e :: r.err == Wrapped("Failed to create token: ", e)
    ensures r.LoggedIn? ==> r.redirect == (if htmx then HtmxLocation("/users") else Found("/users"))
  {
    var tokenString := TokenParam(query);
    if tokenString == "" then Unauthenticated
    else
      var (claims, err) := ParseJwt(tokenString, verify);
      if err.Some? then Unauthenticated
      else if ClaimOf(claims, "aud") != Some(CString("loginlink")) || ClaimOf(claims, "sub").None? then Unauthenticated
      else if !ClaimOf(claims, "sub").value.CString? then Unauthenticated
      else match ParseInt(ClaimOf(claims, "sub").value.s)
        case None => Unauthenticated
        case Some(userId) =>
          if getUser(ToInt32(userId)).Some? then Unauthenticated
          else match SetUserLoggedInCookie(userId, isProduction, now, sign)
            case Err(e) => LoginFailed(Wrapped("Failed to create token: ", e))
            case Ok(c) => LoggedIn(c, if htmx then HtmxLocation("/users") else Found("/users"))
  }

  /** A login link signs in exactly when its token verifies (an expired one does not), is
      meant for logging in, names an existing user by a decimal id, and a session token can
      be signed; the cookie it sets then reads back as that user. */
  lemma LoginLinkSignsIn(query: map<string, string>, verify: string -> Verified, getUser: Int32 -> Option<Error>,
                         isProduction: bool, htmx: bool, now: int, sign: Signer, jar: Jar)
    requires Honest(sign, verify)
    ensures var r := HandleLoginLink(query, verify, getUser, isProduction, htmx, now, sign);
      var v := verify(TokenParam(query));
      var sub := if "sub" in v.claims && v.claims["sub"].CString? then ParseInt(v.claims["sub"].s) else None;
      r.LoggedIn? <==>
        TokenParam(query) != "" && v.err.None? &&
        "aud" in v.claims && v.claims["aud"] == CString("loginlink") && sub.Some? &&
        getUser(ToInt32(sub.value)).None? &&
        sign(AuthJwt.Claims(SessionOptions(sub.value), now)).Ok?
    ensures var r := HandleLoginLink(query, verify, getUser, isProduction, htmx, now, sign);
      r.LoggedIn? ==> UserIdFromCookie(Store(jar, r.cookie), verify, false).UserId?
  {
    var r := HandleLoginLink(query, verify, getUser, isProduction, htmx, now, sign);
    if r.LoggedIn? {
      var v := verify(TokenParam(query));
      var userId: Int64 := ParseInt(v.claims["sub"].s).value;
      SessionRoundTrip(jar, userId, isProduction, now, sign, verify, false);
    }
  }

  /** The two kinds of token are not interchangeable: a login-link token used as a session
      cookie has the wrong audience, and a session token used as a login link is refused. */
  lemma TokensNotInterchangeable(jar: Jar, verify: string -> Verified, token: string, claims: Claims,
                                 getUser: Int32 -> Option<Error>, isProduction: bool, htmx: bool, now: int, sign: Signer)
    requires token != "" && verify(token) == Verified(claims, None)
    ensures "aud" in claims && claims["aud"] == CString("loginlink") ==>
      UserIdFromCookie(jar[CookieName := token], verify, false) == NoUser(InvalidAudience)
    ensures "aud" in claims && claims["aud"] == CString("go-form") ==>
      HandleLoginLink(map["token" := token], verify, getUser, isProduction, htmx, now, sign) == Unauthenticated
  {
    assert TokenParam(map["token" := token]) == token;
  }
}
