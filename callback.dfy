/**
 * GET /api/auth/twitter/callback: check the echoed state against the cookie
 * (section 10.12 of RFC 6749), exchange the code for a token, fetch the
 * profile, and issue the `user` cookie.
 */
module Callback {
  import opened Wrappers
  import opened Config
  import opened Whitelist
  import opened Http
  import opened Json

  /**
   * A provider HTTP call: it failed to complete; or it answered with a status
   * but its body could not be read (`text()` or `json()` rejects); or it
   * answered with a status and a readable body that is JSON or not.
   */
  datatype Reply<T> = Unreachable | Unread(status: int) | Answered(status: int, json: Option<T>)

  /** `response.ok`. */
  predicate Ok(status: int) {
    200 <= status <= 299
  }

  /** The parsed token response; `access_token` may be missing. */
  datatype TokenJson = TokenJson(accessToken: Option<string>)

  /** The `data` object of the users/me response. */
  datatype ProfileData = ProfileData(id: Option<string>, name: Option<string>, profileImageUrl: Option<string>)

  /** The parsed users/me response; `data` may be missing. */
  datatype ProfileJson = ProfileJson(data: Option<ProfileData>)

  /** The token request: the Basic credentials before base64 encoding, and the form body. */
  datatype TokenRequest = TokenRequest(credentials: string, form: Query)

  /** The provider's two endpoints, as their answers to each request. */
  datatype Provider = Provider(
    token: TokenRequest -> Reply<TokenJson>,
    me: string -> Reply<ProfileJson>)

  /** An outbound call the handler makes: the token exchange, or the profile fetch with its Authorization header. */
  datatype Call = Exchange(request: TokenRequest) | FetchProfile(authorization: string)

  /** How the handler ends. */
  datatype Outcome = InvalidState | TokenError | UserInfoError | Unexpected | SignedIn(user: User)

  /** The return URL, the outcome, and the provider calls made, in order. */
  datatype Decision = Decision(returnUrl: string, outcome: Outcome, calls: seq<Call>)

  /** The token request for an authorization code (section 4.1.3 of RFC 6749, PKCE verifier "challenge"). */
  function TokenRequestFor(env: Env, code: string): TokenRequest {
    TokenRequest(
      Interpolate(env.clientId) + ":" + Interpolate(env.clientSecret),
      [("code", code), ("grant_type", "authorization_code"),
       ("redirect_uri", TwitterRedirectUri(env)), ("code_verifier", "challenge")])
  }

  /** `Bearer ${access_token}`. */
  function Bearer(token: TokenJson): string {
    "Bearer " + Interpolate(token.accessToken)
  }

  /** The `user` record built from the profile data. */
  function UserOf(data: ProfileData): User {
    User(data.id, data.name, data.profileImageUrl)
  }

  /** The stored return URL, with a missing or empty cookie read as "/". */
  function StoredReturnUrl(cookies: map<string, string>): string {
    OrElse(CookieGet(cookies, "auth_return_url"), "/")
  }

  /** The request may proceed: code and state are present and non-empty, and state equals the cookie. */
  predicate StateAccepted(query: Query, cookies: map<string, string>) {
    Truthy(Get(query, "code")) && Truthy(Get(query, "state")) &&
    Get(query, "state") == CookieGet(cookies, "auth_state")
  }

  /**
   * The handler's branching, from the request and the provider's answers: the
   * return URL is always the re-sanitised cookie, and the provider is called
   * at all exactly when the state check passes.
   */
  function Decide(rt: Runtime, query: Query, cookies: map<string, string>, provider: Provider): (d: Decision)
    ensures d.returnUrl == GetSafeRedirectUrl(rt, Some(StoredReturnUrl(cookies)))
    ensures d.outcome == InvalidState <==> !StateAccepted(query, cookies)
    ensures d.calls == [] <==> d.outcome == InvalidState
  {
    var safe := GetSafeRedirectUrl(rt, Some(StoredReturnUrl(cookies)));
    if !StateAccepted(query, cookies) then Decision(safe, InvalidState, [])
    else Exchanged(safe, TokenRequestFor(rt.env, Get(query, "code").value), provider)
  }

  /** From the token exchange on. */
  function Exchanged(safe: string, request: TokenRequest, provider: Provider): Decision {
    match provider.token(request)
    // the fetch rejected
    case Unreachable => Decision(safe, Unexpected, [Exchange(request)])
    // `tokenResponse.text()` or `tokenResponse.json()` rejected while reading the body
    case Unread(_) => Decision(safe, Unexpected, [Exchange(request)])
    case Answered(status, token) =>
      if !Ok(status) then Decision(safe, TokenError, [Exchange(request)])
      // `tokenResponse.json()` threw
      else if token.None? then Decision(safe, Unexpected, [Exchange(request)])
      else Profiled(safe, request, Bearer(token.value), provider)
  }

  /** From the profile fetch on. */
  function Profiled(safe: string, request: TokenRequest, authorization: string, provider: Provider): Decision {
    var calls := [Exchange(request), FetchProfile(authorization)];
    match provider.me(authorization)
    case Unreachable => Decision(safe, Unexpected, calls)
    // `userResponse.text()` or `userResponse.json()` rejected while reading the body
    case Unread(_) => Decision(safe, Unexpected, calls)
    case Answered(status, profile) =>
      if !Ok(status) then Decision(safe, UserInfoError, calls)
      // `userResponse.json()` threw, or `userData.data` is undefined and reading `.id` threw
      else if profile.None? || profile.value.data.None? then Decision(safe, Unexpected, calls)
      else Decision(safe, SignedIn(UserOf(profile.value.data.value)), calls)
  }

  /** The marker put in `authError`. */
  function Marker(outcome: Outcome): string {
    match outcome
    case InvalidState => "invalid_state"
    case TokenError => "token_error"
    case UserInfoError => "user_info_error"
    case Unexpected => "true"
    case SignedIn(_) => ""
  }

  /** The unresolved redirect target of the response. */
  function RedirectTarget(d: Decision): string {
    match d.outcome
    case SignedIn(_) => d.returnUrl
    case Unexpected => "/?authError=true"
    case _ => d.returnUrl + "?authError=" + Marker(d.outcome)
  }

  /** Options of the `user` cookie: readable by scripts, site-wide, lax, thirty days. */
  function UserCookieOptions(env: Env): CookieOptions {
    CookieOptions(false, Secure(env), Some(60 * 60 * 24 * 30), None, "/", Lax, None)
  }

  /** The response's cookie instructions: only a sign-in touches cookies. */
  function CallbackCookies(rt: Runtime, d: Decision): map<string, CookieDirective> {
    match d.outcome
    case SignedIn(user) =>
      map["auth_state" := DeleteCookie, "auth_return_url" := DeleteCookie,
          "user" := SetCookie(EncodeUser(user), UserCookieOptions(rt.env))]
    case _ => map[]
  }

  /** The route handler; `calls` lists the provider requests it made, in order. */
  method HandleCallback(rt: Runtime, query: Query, cookies: map<string, string>, provider: Provider)
    returns (r: Response, calls: seq<Call>)
    ensures fresh(r)
    ensures calls == Decide(rt, query, cookies, provider).calls
    ensures r.location == Target(RedirectTarget(Decide(rt, query, cookies, provider)))
    ensures r.cookies == CallbackCookies(rt, Decide(rt, query, cookies, provider))
  {
    var d := Decide(rt, query, cookies, provider);
    calls := d.calls;
    if d.outcome.SignedIn? {
      r := new Response.Redirect(Target(d.returnUrl));
      r.Delete("auth_state");
      r.Delete("auth_return_url");
      r.Set("user", EncodeUser(d.outcome.user), UserCookieOptions(rt.env));
    } else {
      r := new Response.Redirect(Target(RedirectTarget(d)));
    }
  }

  // ---- properties ----

  /** The return URL is the stored cookie re-sanitised, with a missing cookie read as "/". */
  lemma ReturnUrlResanitised(rt: Runtime, query: Query, cookies: map<string, string>, provider: Provider)
    ensures var d := Decide(rt, query, cookies, provider);
      d.returnUrl == GetSafeRedirectUrl(rt, Some(StoredReturnUrl(cookies))) &&
      ("auth_return_url" !in cookies ==> d.returnUrl == "/") &&
      (d.returnUrl == "/" || ("auth_return_url" in cookies && d.returnUrl == cookies["auth_return_url"] &&
                              IsUrlInWhitelist(rt, d.returnUrl)))
  {
  }

  /**
   * What the exchange stage promises: the token request goes out first, a
   * refused token stops before the profile fetch, a refused profile leaves
   * the outcome at `user_info_error`, and a sign-in carries the profile data.
   */
  lemma ExchangedCalls(safe: string, request: TokenRequest, provider: Provider)
    ensures var d := Exchanged(safe, request, provider);
      d.returnUrl == safe && d.outcome != InvalidState &&
      1 <= |d.calls| <= 2 && d.calls[0] == Exchange(request) &&
      (|d.calls| == 2 <==> (provider.token(request).Answered? && Ok(provider.token(request).status) &&
                           provider.token(request).json.Some?)) &&
      (|d.calls| == 2 ==> d.calls[1] == FetchProfile(Bearer(provider.token(request).json.value))) &&
      (d.outcome == TokenError <==> provider.token(request).Answered? && !Ok(provider.token(request).status))
    ensures var d := Exchanged(safe, request, provider);
      d.outcome == UserInfoError ==>
        |d.calls| == 2 && provider.me(d.calls[1].authorization).Answered? &&
        !Ok(provider.me(d.calls[1].authorization).status)
    ensures var d := Exchanged(safe, request, provider);
      d.outcome.SignedIn? ==>
        |d.calls| == 2 &&
        var p := provider.me(d.calls[1].authorization);
        p.Answered? && Ok(p.status) && p.json.Some? && p.json.value.data.Some? &&
        d.outcome.user == UserOf(p.json.value.data.value)
  {
    match provider.token(request)
    case Unreachable =>
    case Unread(_) =>
    case Answered(status, token) =>
      if Ok(status) && token.Some? {
        var authorization := Bearer(token.value);
        assert Exchanged(safe, request, provider) == Profiled(safe, request, authorization, provider);
      }
  }

  /**
   * The token endpoint is called exactly when code and state are present and
   * state equals the `auth_state` cookie; otherwise the request ends with
   * `invalid_state`, no provider call and no cookie change.
   */
  lemma ExchangeOnlyAfterStateCheck(rt: Runtime, query: Query, cookies: map<string, string>, provider: Provider)
    ensures var d := Decide(rt, query, cookies, provider);
      (d.calls != [] <==> StateAccepted(query, cookies)) &&
      (d.calls != [] ==> d.calls[0] == Exchange(TokenRequestFor(rt.env, Get(query, "code").value)))
    ensures var d := Decide(rt, query, cookies, provider);
      d.outcome == InvalidState <==> !StateAccepted(query, cookies)
    ensures var d := Decide(rt, query, cookies, provider);
      !StateAccepted(query, cookies) ==>
        CallbackCookies(rt, d) == map[] && RedirectTarget(d) == d.returnUrl + "?authError=invalid_state"
  {
    if StateAccepted(query, cookies) {
      var safe := GetSafeRedirectUrl(rt, Some(StoredReturnUrl(cookies)));
      ExchangedCalls(safe, TokenRequestFor(rt.env, Get(query, "code").value), provider);
    }
  }

  /** A callback without an `auth_state` cookie never reaches the token endpoint. */
  lemma MissingStateCookieRejected(rt: Runtime, query: Query, cookies: map<string, string>, provider: Provider)
    requires "auth_state" !in cookies
    ensures Decide(rt, query, cookies, provider).outcome == InvalidState
    ensures Decide(rt, query, cookies, provider).calls == []
  {
  }

  /**
   * After an accepted state, a refused token request ends with `token_error`
   * before any profile fetch and sets no cookie; and `token_error` arises in
   * no other way.
   */
  lemma TokenErrorSkipsProfile(rt: Runtime, query: Query, cookies: map<string, string>, provider: Provider)
    ensures var d := Decide(rt, query, cookies, provider);
      StateAccepted(query, cookies) ==>
      var t := provider.token(TokenRequestFor(rt.env, Get(query, "code").value));
      t.Answered? && !Ok(t.status) ==>
        d.outcome == TokenError && d.calls == [Exchange(TokenRequestFor(rt.env, Get(query, "code").value))] &&
        RedirectTarget(d) == d.returnUrl + "?authError=token_error" && CallbackCookies(rt, d) == map[]
    ensures var d := Decide(rt, query, cookies, provider);
      d.outcome == TokenError ==>
        |d.calls| == 1 && d.calls[0].Exchange? &&
        provider.token(d.calls[0].request).Answered? && !Ok(provider.token(d.calls[0].request).status) &&
        RedirectTarget(d) == d.returnUrl + "?authError=token_error" && CallbackCookies(rt, d) == map[]
  {
    RedirectTargets(Decide(rt, query, cookies, provider));
    if StateAccepted(query, cookies) {
      var safe := GetSafeRedirectUrl(rt, Some(StoredReturnUrl(cookies)));
      ExchangedCalls(safe, TokenRequestFor(rt.env, Get(query, "code").value), provider);
    }
  }

  /**
   * After an accepted state and an OK JSON token reply, a refused profile
   * request ends with `user_info_error` and sets no cookie; and
   * `user_info_error` arises in no other way.
   */
  lemma UserInfoErrorSetsNoUser(rt: Runtime, query: Query, cookies: map<string, string>, provider: Provider)
    ensures var d := Decide(rt, query, cookies, provider);
      StateAccepted(query, cookies) ==>
      var t := provider.token(TokenRequestFor(rt.env, Get(query, "code").value));
      t.Answered? && Ok(t.status) && t.json.Some? &&
      provider.me(Bearer(t.json.value)).Answered? && !Ok(provider.me(Bearer(t.json.value)).status) ==>
        d.outcome == UserInfoError && CallbackCookies(rt, d) == map[] &&
        d.calls == [Exchange(TokenRequestFor(rt.env, Get(query, "code").value)), FetchProfile(Bearer(t.json.value))] &&
        RedirectTarget(d) == d.returnUrl + "?authError=user_info_error"
    ensures var d := Decide(rt, query, cookies, provider);
      d.outcome == UserInfoError ==>
        |d.calls| == 2 && d.calls[1].FetchProfile? &&
        provider.me(d.calls[1].authorization).Answered? && !Ok(provider.me(d.calls[1].authorization).status) &&
        RedirectTarget(d) == d.returnUrl + "?authError=user_info_error" && "user" !in CallbackCookies(rt, d)
  {
    RedirectTargets(Decide(rt, query, cookies, provider));
    if StateAccepted(query, cookies) {
      var safe := GetSafeRedirectUrl(rt, Some(StoredReturnUrl(cookies)));
      ExchangedCalls(safe, TokenRequestFor(rt.env, Get(query, "code").value), provider);
    }
  }

  /** Each failure gets its own marker after the return URL; an unexpected error goes to the root. */
  lemma RedirectTargets(d: Decision)
    ensures d.outcome.SignedIn? ==> RedirectTarget(d) == d.returnUrl
    ensures d.outcome == InvalidState ==> RedirectTarget(d) == d.returnUrl + "?authError=invalid_state"
    ensures d.outcome == TokenError ==> RedirectTarget(d) == d.returnUrl + "?authError=token_error"
    ensures d.outcome == UserInfoError ==> RedirectTarget(d) == d.returnUrl + "?authError=user_info_error"
    ensures d.outcome == Unexpected ==> RedirectTarget(d) == "/?authError=true"
    ensures forall o1: Outcome, o2: Outcome :: !o1.SignedIn? && !o2.SignedIn? && Marker(o1) == Marker(o2) ==> o1 == o2
  {
  }

  /**
   * A sign-in holds the profile's id, name and image; the cookie value reads
   * back as that record; both transient cookies are deleted; and the redirect
   * carries no error marker.
   */
  lemma SignInCookies(rt: Runtime, query: Query, cookies: map<string, string>, provider: Provider)
    ensures var d := Decide(rt, query, cookies, provider);
      d.outcome.SignedIn? ==>
        |d.calls| == 2 && d.calls[1].FetchProfile? &&
        (var p := provider.me(d.calls[1].authorization);
         p.Answered? && Ok(p.status) && p.json.Some? && p.json.value.data.Some? &&
         d.outcome.user == User(p.json.value.data.value.id, p.json.value.data.value.name,
                                p.json.value.data.value.profileImageUrl))
    ensures var d := Decide(rt, query, cookies, provider);
      d.outcome.SignedIn? ==>
        var jar := CallbackCookies(rt, d);
        jar.Keys == {"auth_state", "auth_return_url", "user"} &&
        jar["auth_state"] == DeleteCookie && jar["auth_return_url"] == DeleteCookie &&
        jar["user"].SetCookie? && DecodeUser(jar["user"].value) == Some(d.outcome.user) &&
        jar["user"].options == UserCookieOptions(rt.env) &&
        RedirectTarget(d) == d.returnUrl
  {
    var d := Decide(rt, query, cookies, provider);
    if StateAccepted(query, cookies) {
      var safe := GetSafeRedirectUrl(rt, Some(StoredReturnUrl(cookies)));
      ExchangedCalls(safe, TokenRequestFor(rt.env, Get(query, "code").value), provider);
    }
    if d.outcome.SignedIn? {
      SignInJar(rt, d.outcome.user);
    }
  }

  /** The sign-in jar for a user: the transient cookies deleted and `user` set to text that reads back as the record. */
  lemma SignInJar(rt: Runtime, user: User)
    ensures var jar := CallbackCookies(rt, Decision("", SignedIn(user), []));
      jar.Keys == {"auth_state", "auth_return_url", "user"} &&
      jar["auth_state"] == DeleteCookie && jar["auth_return_url"] == DeleteCookie &&
      jar["user"].SetCookie? && DecodeUser(jar["user"].value) == Some(user) &&
      jar["user"].options == UserCookieOptions(rt.env)
  {
    UserRoundTrip(user);
  }

  /**
   * Conversely, an accepted state and two successful provider answers always
   * sign the user in with the profile's data.
   */
  lemma SuccessfulExchangeSignsIn(rt: Runtime, query: Query, cookies: map<string, string>, provider: Provider,
                                  token: TokenJson, data: ProfileData)
    requires StateAccepted(query, cookies)
    requires provider.token(TokenRequestFor(rt.env, Get(query, "code").value)).Answered?
    requires Ok(provider.token(TokenRequestFor(rt.env, Get(query, "code").value)).status)
    requires provider.token(TokenRequestFor(rt.env, Get(query, "code").value)).json == Some(token)
    requires provider.me(Bearer(token)).Answered? && Ok(provider.me(Bearer(token)).status)
    requires provider.me(Bearer(token)).json == Some(ProfileJson(Some(data)))
    ensures Decide(rt, query, cookies, provider).outcome == SignedIn(UserOf(data))
    ensures Decide(rt, query, cookies, provider).returnUrl == GetSafeRedirectUrl(rt, Some(StoredReturnUrl(cookies)))
  {
    var safe := GetSafeRedirectUrl(rt, Some(StoredReturnUrl(cookies)));
    var request := TokenRequestFor(rt.env, Get(query, "code").value);
    assert Decide(rt, query, cookies, provider) == Exchanged(safe, request, provider);
    assert Exchanged(safe, request, provider) == Profiled(safe, request, Bearer(token), provider);
  }

  /**
   * The `user` cookie a sign-in sets is readable by scripts, site-wide, lax,
   * host-only and lives for 2592000 seconds.
   */
  lemma UserCookieAttributes(rt: Runtime, d: Decision)
    ensures d.outcome.SignedIn? ==>
      CallbackCookies(rt, d)["user"].SetCookie? &&
      var o := CallbackCookies(rt, d)["user"].options;
      !o.httpOnly && o.path == "/" && o.sameSite == Lax && o.maxAge == Some(2592000) &&
      o.expires == None && o.domain == None && o.secure == Secure(rt.env)
  {
  }
}
