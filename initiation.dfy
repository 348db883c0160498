/**
 * GET /api/auth/twitter: start the authorization-code flow (section 4.1.1 of
 * RFC 6749, with the PKCE parameters of section 4.3 of RFC 7636).
 */
module Initiation {
  import opened Wrappers
  import opened Config
  import opened Whitelist
  import opened Http

  const AuthorizeEndpoint: string := "https://twitter.com/i/oauth2/authorize"

  /** The requested scopes, before they are joined. */
  const ScopeList: seq<string> := ["users.read", "tweet.read"]

  /** `parts.join(sep)`. */
  function Join(parts: seq<string>, sep: string): string {
    if parts == [] then []
    else if |parts| == 1 then parts[0]
    else parts[0] + sep + Join(parts[1..], sep)
  }

  /** TWITTER_SCOPES. */
  function Scopes(): string {
    Join(ScopeList, " ")
  }

  /** The authorization request's query, in the order the parameters are appended. */
  function AuthorizationQuery(env: Env, state: string): Query {
    [("response_type", "code"),
     ("client_id", Interpolate(env.clientId)),
     ("redirect_uri", TwitterRedirectUri(env)),
     ("scope", Scopes()),
     ("state", state),
     ("code_challenge", "challenge"),
     ("code_challenge_method", "plain")]
  }

  /** Options of the two transient cookies: http-only, site-wide, lax, ten minutes. */
  function TransientOptions(env: Env): CookieOptions {
    CookieOptions(true, Secure(env), Some(60 * 10), None, "/", Lax, None)
  }

  /** The cookies a successful start sets. */
  function StartCookies(rt: Runtime, returnParam: Option<string>, state: string): map<string, CookieDirective> {
    map["auth_state" := SetCookie(state, TransientOptions(rt.env)),
        "auth_return_url" := SetCookie(GetSafeRedirectUrl(rt, returnParam), TransientOptions(rt.env))]
  }

  const StartErrorTarget: string := "/?authError=true"

  /**
   * The route handler. `state` is what generateState returned; `fault` says that
   * framework code inside the try block threw, in which case the response under
   * construction is discarded.
   */
  method Start(rt: Runtime, query: Query, state: string, fault: bool) returns (r: Response)
    ensures fresh(r)
    ensures !fault ==> r.location == WithQuery(AuthorizeEndpoint, AuthorizationQuery(rt.env, state))
    ensures !fault ==> r.cookies == StartCookies(rt, Get(query, "returnUrl"), state)
    ensures fault ==> r.location == Target(StartErrorTarget) && r.cookies == map[]
  {
    var returnUrl := GetSafeRedirectUrl(rt, Get(query, "returnUrl"));
    var authUrl := new Url(AuthorizeEndpoint);
    authUrl.Append("response_type", "code");
    authUrl.Append("client_id", Interpolate(rt.env.clientId));
    authUrl.Append("redirect_uri", TwitterRedirectUri(rt.env));
    authUrl.Append("scope", Scopes());
    authUrl.Append("state", state);
    authUrl.Append("code_challenge", "challenge");
    authUrl.Append("code_challenge_method", "plain");
    assert authUrl.query == AuthorizationQuery(rt.env, state);
    r := new Response.Redirect(WithQuery(authUrl.endpoint, authUrl.query));
    r.Set("auth_state", state, TransientOptions(rt.env));
    r.Set("auth_return_url", returnUrl, TransientOptions(rt.env));
    assert r.cookies == StartCookies(rt, Get(query, "returnUrl"), state);
    if fault {
      r := new Response.Redirect(Target(StartErrorTarget));
    }
  }

  /** The scope string is the two scopes joined by one space. */
  lemma ScopesValue()
    ensures Scopes() == "users.read tweet.read"
  {
    assert Join(ScopeList[1..], " ") == "tweet.read";
  }

  /** The authorization query carries the seven parameters in this order. */
  lemma AuthorizationQueryOrder(env: Env, state: string)
    ensures Names(AuthorizationQuery(env, state)) ==
      ["response_type", "client_id", "redirect_uri", "scope", "state", "code_challenge", "code_challenge_method"]
  {
  }

  /**
   * The parameters of section 4.1.1 of RFC 6749 read back with the fixed
   * response type, the configured client and callback, and the scope string.
   */
  lemma AuthorizationGrantParameters(env: Env, state: string)
    ensures var q := AuthorizationQuery(env, state);
      Get(q, "response_type") == Some("code") &&
      Get(q, "client_id") == Some(Interpolate(env.clientId)) &&
      Get(q, "redirect_uri") == Some(TwitterRedirectUri(env)) &&
      Get(q, "scope") == Some("users.read tweet.read")
  {
    ScopesValue();
    var q := AuthorizationQuery(env, state);
    assert Get(q, "response_type") == Some("code") by { GetFirstWins(q, 0); }
    assert Get(q, "client_id") == Some(Interpolate(env.clientId)) by { GetFirstWins(q, 1); }
    assert Get(q, "redirect_uri") == Some(TwitterRedirectUri(env)) by { GetFirstWins(q, 2); }
    assert Get(q, "scope") == Some(Scopes()) by { GetFirstWins(q, 3); }
  }

  /** The anti-forgery state and the plain PKCE challenge (section 4.3 of RFC 7636) read back unchanged. */
  lemma AuthorizationStateAndChallenge(env: Env, state: string)
    ensures var q := AuthorizationQuery(env, state);
      Get(q, "state") == Some(state) &&
      Get(q, "code_challenge") == Some("challenge") &&
      Get(q, "code_challenge_method") == Some("plain")
  {
    var q := AuthorizationQuery(env, state);
    assert Get(q, "state") == Some(state) by { GetFirstWins(q, 4); }
    assert Get(q, "code_challenge") == Some("challenge") by { GetFirstWins(q, 5); }
    assert Get(q, "code_challenge_method") == Some("plain") by { GetFirstWins(q, 6); }
  }

  /**
   * The `state` parameter sent to the provider is the `auth_state` cookie
   * value, and the `auth_return_url` cookie is the sanitised return URL, never
   * the raw parameter unless it is whitelisted.
   */
  lemma StartCookiesMatchRequest(rt: Runtime, returnParam: Option<string>, state: string)
    ensures var c := StartCookies(rt, returnParam, state);
      Some(c["auth_state"].value) == Get(AuthorizationQuery(rt.env, state), "state") &&
      c["auth_return_url"].value == GetSafeRedirectUrl(rt, returnParam) &&
      (c["auth_return_url"].value == "/" || (returnParam == Some(c["auth_return_url"].value) &&
                                            IsUrlInWhitelist(rt, c["auth_return_url"].value)))
  {
    GetFirstWins(AuthorizationQuery(rt.env, state), 4);
  }

  /** Both transient cookies are http-only, site-wide, lax and live for 600 seconds. */
  lemma TransientCookieOptions(rt: Runtime, returnParam: Option<string>, state: string)
    ensures forall n :: n in StartCookies(rt, returnParam, state) ==>
      var d := StartCookies(rt, returnParam, state)[n];
      d.SetCookie? && d.options.httpOnly && d.options.path == "/" && d.options.sameSite == Lax &&
      d.options.maxAge == Some(600) && d.options.secure == Secure(rt.env)
    ensures StartCookies(rt, returnParam, state).Keys == {"auth_state", "auth_return_url"}
  {
  }
}
