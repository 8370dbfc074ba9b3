/** Request routing (routes.go): the middleware that records whether a request came from
    htmx, the middleware that turns an "Unauthenticated" flag into a redirect or a relogin
    prompt, the session check of the authenticated group, the eight routes of a resource,
    and the error handler. The next handler in a middleware chain is an oracle. */
module Routes {
  import opened Wrappers
  import opened GoInt
  import opened Strings
  import opened Errors
  import opened Jwt
  import opened AuthJwt
  import opened Resources
  import opened HandlerUtils
  import opened HandlersSession
  import Models

  /** A value in echo's per-request store or in the request's context. */
  datatype Value = Flag(b: bool) | Url(url: string)

  /** The per-request state the middleware writes: echo's store (`c.Set`, `c.Get`) and the
      values attached to the request's context (`context.WithValue`). */
  class RequestState {
    var store: map<string, Value>
    var ctx: map<string, Value>

    constructor(store0: map<string, Value>, ctx0: map<string, Value>)
      ensures store == store0 && ctx == ctx0
    {
      store := store0;
      ctx := ctx0;
    }

    /** `c.Set(key, v)` */
    method Set(key: string, v: Value)
      modifies this
      ensures store == old(store)[key := v] && ctx == old(ctx)
    {
      store := store[key := v];
    }

    /** `c.SetRequest(c.Request().WithContext(context.WithValue(ctx, key, v)))` */
    method WithValue(key: string, v: Value)
      modifies this
      ensures ctx == old(ctx)[key := v] && store == old(store)
    {
      ctx := ctx[key := v];
    }
  }

  const HxRequest: string := "HX-Request"
  const HxCurrentUrl: string := "HX-Current-URL"

  /** `isHtmx`: the stored "isHtmx" value is a bool and it is true. */
  predicate IsHtmx(store: map<string, Value>) {
    "isHtmx" in store && store["isHtmx"].Flag? && store["isHtmx"].b
  }

  /** `setIsHtmx`, before it calls the next handler: a request is htmx exactly when its
      HX-Request header is "true"; only then is HX-Current-URL read, and it is recorded only
      when it parses. Both values go to the store and to the request's context. `header` is
      the request's `Header.Get`, "" for an absent header; `parseUrl` is `url.Parse`. */
  method SetIsHtmx(st: RequestState, header: string -> string, parseUrl: string -> Option<string>)
    modifies st
    ensures var htmx := header(HxRequest) == "true";
      var current := parseUrl(header(HxCurrentUrl));
      if htmx && current.Some? then
        st.store == old(st.store)["isHtmx" := Flag(htmx)]["currentUrl" := Url(current.value)] &&
        st.ctx == old(st.ctx)["isHtmx" := Flag(htmx)]["currentUrl" := Url(current.value)]
      else
        st.store == old(st.store)["isHtmx" := Flag(htmx)] && st.ctx == old(st.ctx)["isHtmx" := Flag(htmx)]
    ensures IsHtmx(st.store) <==> header(HxRequest) == "true"
    ensures "currentUrl" in st.store && !("currentUrl" in old(st.store)) ==> IsHtmx(st.store)
  {
    var htmx := header(HxRequest) == "true";
    st.WithValue("isHtmx", Flag(htmx));
    st.Set("isHtmx", Flag(htmx));
    if htmx {
      var current := parseUrl(header(HxCurrentUrl));
      if current.Some? {
        st.WithValue("currentUrl", Url(current.value));
        st.Set("currentUrl", Url(current.value));
      }
    }
  }

  /** The request was flagged "Unauthenticated" with a bool, whatever its value. */
  predicate Flagged(store: map<string, Value>) {
    "Unauthenticated" in store && store["Unauthenticated"].Flag?
  }

  /** The headers that make htmx show the relogin prompt. */
  const ReloginHeaders: seq<(string, string)> := [("HX-Reswap", "innerHTML show:top"), ("HX-Retarget", "#relogin")]

  /** How a request leaves `handleUnauthenticated`: with the inner handler's error, an htmx
      redirect, the relogin prompt (the headers above and status 422 with the
      session-expired template), a plain redirect, or a panic of the cookie reader. */
  datatype Outcome =
    | PassThrough(err: Option<Error>)
    | HtmxRedirectTo(url: string)
    | ReloginPrompt(headers: seq<(string, string)>, status: int)
    | RedirectTo(status: int, url: string)
    | Panics

  /** `handleUnauthenticated`, after the inner handler returned `handlerErr` and left
      `store` and the request `path`. */
  function HandleUnauthenticated(handlerErr: Option<Error>, store: map<string, Value>, path: string,
                                 jar: Jar, verify: string -> Verified): (r: Outcome)
    ensures !Flagged(store) ==> r == PassThrough(handlerErr)
    ensures Flagged(store) && !IsHtmx(store) ==> r == RedirectTo(302, "/login")
    ensures Flagged(store) && IsHtmx(store) && path == "/logout" ==> r == HtmxRedirectTo("/login")
    ensures Flagged(store) && IsHtmx(store) && path != "/logout" ==>
      match UserIdFromCookie(jar, verify, true)
      case NoUser(_) => r == HtmxRedirectTo("/login")
      case UserId(_) => r == ReloginPrompt(ReloginHeaders, 422)
      case SubjectPanics => r == Panics
  {
    if !Flagged(store) then PassThrough(handlerErr)
    else if !IsHtmx(store) then RedirectTo(302, "/login")
    else if path == "/logout" then HtmxRedirectTo("/login")
    else
      match UserIdFromCookie(jar, verify, true)
      case NoUser(_) => HtmxRedirectTo("/login")
      case SubjectPanics => Panics
      case UserId(_) =>
        ReloginPrompt([("HX-Reswap", "innerHTML show:top"), ("HX-Retarget", "#relogin")], 422)
  }

  /** The flag's bool value is never looked at, and once flagged the inner handler's error
      is dropped. */
  lemma FlagValueIgnored(e1: Option<Error>, e2: Option<Error>, store: map<string, Value>, path: string,
                         jar: Jar, verify: string -> Verified)
    ensures HandleUnauthenticated(e1, store["Unauthenticated" := Flag(false)], path, jar, verify) ==
            HandleUnauthenticated(e2, store["Unauthenticated" := Flag(true)], path, jar, verify)
  {
    var s0 := store["Unauthenticated" := Flag(false)];
    var s1 := store["Unauthenticated" := Flag(true)];
    assert IsHtmx(s0) <==> IsHtmx(s1);
  }

  /** What the authenticated group's middleware does: call the next handler for a valid,
      unexpired session, flag the request otherwise, or panic with the cookie reader. */
  datatype Gate = Proceed(userId: Int32) | FlagUnauthenticated | GatePanics

  function AuthenticatedGate(jar: Jar, verify: string -> Verified): (g: Gate)
    ensures g.Proceed? <==> UserIdFromCookie(jar, verify, false).UserId?
    ensures g.Proceed? ==> g.userId == UserIdFromCookie(jar, verify, false).id
    ensures g == GatePanics <==> UserIdFromCookie(jar, verify, false) == SubjectPanics
  {
    match UserIdFromCookie(jar, verify, false)
    case UserId(id) => Proceed(id)
    case NoUser(_) => FlagUnauthenticated
    case SubjectPanics => GatePanics
  }

  /** A request to an authenticated route, through both middlewares; `handler` is the
      route's handler, given the user id, returning its error and leaving the store as it
      was. */
  function AuthenticatedRequest(jar: Jar, verify: string -> Verified, store: map<string, Value>, path: string,
                                handler: Int32 -> Option<Error>): Outcome {
    match AuthenticatedGate(jar, verify)
    case Proceed(id) => HandleUnauthenticated(handler(id), store, path, jar, verify)
    case FlagUnauthenticated => HandleUnauthenticated(None, store["Unauthenticated" := Flag(true)], path, jar, verify)
    case GatePanics => Panics
  }

  /** Without a session cookie an authenticated route sends the browser to the login page:
      htmx requests by an htmx redirect, others by a 302. */
  lemma NoCookieGoesToLogin(jar: Jar, verify: string -> Verified, store: map<string, Value>, path: string,
                            handler: Int32 -> Option<Error>)
    requires CookieName !in jar
    ensures var r := AuthenticatedRequest(jar, verify, store, path, handler);
      r == if IsHtmx(store) then HtmxRedirectTo("/login") else RedirectTo(302, "/login")
  {
    var flagged := store["Unauthenticated" := Flag(true)];
    assert IsHtmx(flagged) <==> IsHtmx(store);
  }

  /** An expired session is not let through, but an htmx request outside "/logout" gets the
      relogin prompt instead of losing the page; a plain request is redirected. */
  lemma ExpiredSessionPromptsRelogin(jar: Jar, verify: string -> Verified, claims: Claims, store: map<string, Value>,
                                     path: string, handler: Int32 -> Option<Error>)
    requires CookieName in jar && verify(jar[CookieName]) == Verified(claims, Some(LibTokenExpired))
    requires "aud" in claims && claims["aud"] == CString("go-form")
    requires "sub" in claims && claims["sub"].CString? && ParseInt(claims["sub"].s).Some?
    ensures var r := AuthenticatedRequest(jar, verify, store, path, handler);
      r == if !IsHtmx(store) then RedirectTo(302, "/login")
           else if path == "/logout" then HtmxRedirectTo("/login")
           else ReloginPrompt(ReloginHeaders, 422)
  {
    ExpiredSession(jar, verify, claims, true);
    var flagged := store["Unauthenticated" := Flag(true)];
    assert IsHtmx(flagged) <==> IsHtmx(store);
  }

  /** A valid session reaches the handler, whose error comes back unchanged. */
  lemma ValidSessionReachesHandler(jar: Jar, verify: string -> Verified, store: map<string, Value>, path: string,
                                   handler: Int32 -> Option<Error>)
    requires !Flagged(store) && UserIdFromCookie(jar, verify, false).UserId?
    ensures AuthenticatedRequest(jar, verify, store, path, handler) ==
      PassThrough(handler(UserIdFromCookie(jar, verify, false).id))
  {
  }

  // ----- the user getter of the authenticated group -----

  /** What a call of the request's "GetUser" getter gives: the user, an error, or a panic. */
  datatype UserFetch = Loaded(user: Models.DisplayableUser) | LoadFailed(err: Error) | LoadPanics

  /** The "GetUser" getter as written. Its cache is a nil `*DisplayableUser`, and the load
      stores its result through it, so the query runs and then the store panics; the cache
      is never filled, so every call ends the same way. `cached` is the user it refers to
      (`None` for nil); `load` is `queries.GetUser`. */
  function GetUserAsWritten(cached: Option<Models.DisplayableUser>,
                            load: Int32 -> (Models.DisplayableUser, Option<Error>), userId: Int32): (r: UserFetch)
    ensures cached.None? ==> r == LoadPanics
    ensures cached.Some? ==> r == Loaded(cached.value)
  {
    if cached.None? then LoadPanics else Loaded(cached.value)
  }

  /** The getter starts with an empty cache and nothing fills it, so no call ever yields the
      user, whatever the database answers. */
  lemma GetUserAlwaysPanics(load: Int32 -> (Models.DisplayableUser, Option<Error>), userId: Int32)
    ensures GetUserAsWritten(None, load, userId) == LoadPanics
    ensures load(userId).1.None? ==> GetUserAsWritten(None, load, userId) != Loaded(load(userId).0)
  {
  }

  /** The getter as evidently intended: the user is loaded on the first call and kept for
      the rest of the request. */
  class UserGetter {
    const userId: Int32
    var cached: Option<Models.DisplayableUser>

    constructor(id: Int32)
      ensures userId == id && cached == None
    {
      userId := id;
      cached := None;
    }

    /** A kept user is returned as it is; otherwise the user is loaded, and kept only when
        the load succeeds. */
    method Get(load: Int32 -> (Models.DisplayableUser, Option<Error>)) returns (r: UserFetch)
      modifies this
      ensures old(cached).Some? ==> r == Loaded(old(cached).value) && cached == old(cached)
      ensures old(cached).None? && load(userId).1.Some? ==> r == LoadFailed(load(userId).1.value) && cached == None
      ensures old(cached).None? && load(userId).1.None? ==>
        r == Loaded(load(userId).0) && cached == Some(load(userId).0)
      ensures r != LoadPanics
    {
      if cached.None? {
        var (user, err) := load(userId);
        if err.Some? {
          return LoadFailed(err.value);
        }
        cached := Some(user);
      }
      r := Loaded(cached.value);
    }
  }

  /** Once the corrected getter has loaded the user, a later call in the same request gives
      the same user, even if the database has changed in between. */
  method GetUserTwice(g: UserGetter, load1: Int32 -> (Models.DisplayableUser, Option<Error>),
                      load2: Int32 -> (Models.DisplayableUser, Option<Error>)) returns (first: UserFetch, second: UserFetch)
    modifies g
    ensures first.Loaded? ==> second == first
    ensures old(g.cached).None? && load1(g.userId).1.None? ==> second == Loaded(load1(g.userId).0)
  {
    first := g.Get(load1);
    second := g.Get(load2);
  }

  /** The `GetUserFunc` handed to the routes: a failed load is wrapped with
      "failed to get user: ", which `errors.Is` still sees through. */
  function GetUserFunc(f: UserFetch): (r: UserFetch)
    ensures f.LoadFailed? ==> r.LoadFailed? && r.err == Wrapped("failed to get user: ", f.err) && Is(r.err, f.err)
    ensures !f.LoadFailed? ==> r == f
  {
    match f
    case LoadFailed(e) => LoadFailed(Wrapped("failed to get user: ", e))
    case _ => f
  }

  // ----- the routes of one resource -----

  /** The resource handlers a route can lead to. */
  datatype HandlerKind = Index | IndexStream | View | Validate | CreateForm | Create | Update

  datatype Route = Route(verb: string, path: string, handler: HandlerKind)

  /** The routes `RegisterResource` adds, relative to the resource's base path. */
  const ResourceRoutes: seq<Route> := [
    Route("GET", "", Index),
    Route("GET", "/stream", IndexStream),
    Route("GET", "/:id", View),
    Route("GET", "/:id/validate", Validate),
    Route("GET", "/create", CreateForm),
    Route("GET", "/validate", Validate),
    Route("POST", "", Create),
    Route("POST", "/:id", Update)]

  /** `RegisterResource`: the routes above, mounted under `Location(nil)`. */
  function RegisterResource<T>(res: Resource<T>): (routes: seq<Route>)
    ensures |routes| == |ResourceRoutes| == 8
    ensures forall i :: 0 <= i < |routes| ==>
      routes[i].verb == ResourceRoutes[i].verb && routes[i].handler == ResourceRoutes[i].handler &&
      routes[i].path == res.location(None) + ResourceRoutes[i].path
  {
    seq(|ResourceRoutes|, i requires 0 <= i < |ResourceRoutes| =>
      ResourceRoutes[i].(path := res.location(None) + ResourceRoutes[i].path))
  }

  /** No two routes of a resource share a method and a path, every handler is reachable,
      and validation is served both with and without an id. */
  lemma ResourceRoutesDistinct<T>(res: Resource<T>)
    ensures var routes := RegisterResource(res);
      forall i, j :: 0 <= i < j < |routes| ==> routes[i].verb != routes[j].verb || routes[i].path != routes[j].path
    ensures var routes := RegisterResource(res);
      (set i | 0 <= i < |routes| :: routes[i].handler) == {Index, IndexStream, View, Validate, CreateForm, Create, Update}
    ensures var routes := RegisterResource(res);
      routes[3].handler == routes[5].handler == Validate
  {
    var routes := RegisterResource(res);
    var base := res.location(None);
    forall i, j | 0 <= i < j < |routes|
      ensures routes[i].verb != routes[j].verb || routes[i].path != routes[j].path
    {
      assert routes[i].path[|base|..] == ResourceRoutes[i].path;
      assert routes[j].path[|base|..] == ResourceRoutes[j].path;
    }
    var handlers := set i | 0 <= i < |routes| :: routes[i].handler;
    assert routes[0].handler in handlers && routes[1].handler in handlers && routes[2].handler in handlers;
    assert routes[3].handler in handlers && routes[4].handler in handlers && routes[6].handler in handlers;
    assert routes[7].handler in handlers;
  }

  // ----- the error handler -----

  /** `HTTPErrorHandler`: the status it sends with the server-failure page, and the error
      reported to Sentry. Only an `*echo.HTTPError` itself keeps its code; anything else,
      even one wrapping an HTTP error, is a 500 and is reported. */
  function ErrorPage<T>(err: Error): (r: (int, Component<T>, Option<Error>))
    ensures r.1 == ServerFailure("/users")
    ensures err.HttpError? ==> r.0 == err.code && r.2 == None
    ensures !err.HttpError? ==> r.0 == 500 && r.2 == Some(Wrapped("request failed: ", err))
  {
    match err
    case HttpError(code, _) => (code, ServerFailure("/users"), None)
    case _ => (500, ServerFailure("/users"), Some(Wrapped("request failed: ", err)))
  }

  /** The type assertion does not look through wrapping: a wrapped 404 is shown as a 500,
      although `errors.Is` still finds the HTTP error inside the reported one. */
  lemma WrappedHttpErrorIs500<T>(context: string, code: int, message: string)
    ensures ErrorPage<T>(Wrapped(context, HttpError(code, message))).0 == 500
    ensures var reported := ErrorPage<T>(Wrapped(context, HttpError(code, message))).2;
      reported.Some? && Is(reported.value, HttpError(code, message))
  {
  }
}
