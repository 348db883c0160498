/**
 * The login flow end to end: the cookies the start route sets, as the
 * browser keeps them, are what the callback checks.
 */
module LoginFlow {
  import opened Wrappers
  import opened Config
  import opened Whitelist
  import opened Http
  import opened Browser
  import opened Json
  import opened Initiation
  import opened Callback

  /**
   * The browser's cookies after the start response. The store does not age
   * cookies, so a callback arriving after the 600-second Max-Age is not
   * expressible here.
   */
  function AfterStart(rt: Runtime, store: map<string, string>, returnParam: Option<string>, state: string, now: int)
    : map<string, string>
  {
    Apply(store, StartCookies(rt, returnParam, state), now)
  }

  /** The cookies the start route leaves in the browser pass the callback's state check for the state it sent. */
  lemma StartCookiesPassStateCheck(rt: Runtime, store: map<string, string>, returnParam: Option<string>,
                                   state: string, code: string, query: Query, now: int)
    requires state != "" && code != ""
    requires Get(query, "code") == Some(code) && Get(query, "state") == Some(state)
    ensures var browser := AfterStart(rt, store, returnParam, state, now);
      StateAccepted(query, browser) &&
      GetSafeRedirectUrl(rt, Some(StoredReturnUrl(browser))) == GetSafeRedirectUrl(rt, returnParam)
  {
    AfterStartHolds(rt, store, returnParam, state, now);
    SafeRedirectIdempotent(rt, returnParam);
  }

  /** The browser then holds the generated state and the sanitised return URL. */
  lemma AfterStartHolds(rt: Runtime, store: map<string, string>, returnParam: Option<string>, state: string, now: int)
    ensures var browser := AfterStart(rt, store, returnParam, state, now);
      CookieGet(browser, "auth_state") == Some(state) &&
      StoredReturnUrl(browser) == GetSafeRedirectUrl(rt, returnParam)
  {
    var browser := AfterStart(rt, store, returnParam, state, now);
    assert browser["auth_return_url"] == GetSafeRedirectUrl(rt, returnParam);
  }

  /**
   * When the provider echoes the state sent in the authorization URL and both
   * provider calls succeed, the callback signs the user in, redirects to the
   * return URL sanitised at the start, and leaves the browser with the `user`
   * cookie and without the two transient cookies.
   */
  lemma LoginRoundTrip(rt: Runtime, store: map<string, string>, returnParam: Option<string>, state: string,
                       code: string, query: Query, provider: Provider, now: int, token: TokenJson, data: ProfileData)
    requires state != "" && code != ""
    requires Get(query, "code") == Some(code) && Get(query, "state") == Some(state)
    requires provider.token(TokenRequestFor(rt.env, code)).Answered? && Ok(provider.token(TokenRequestFor(rt.env, code)).status)
    requires provider.token(TokenRequestFor(rt.env, code)).json == Some(token)
    requires provider.me(Bearer(token)).Answered? && Ok(provider.me(Bearer(token)).status)
    requires provider.me(Bearer(token)).json == Some(ProfileJson(Some(data)))
    ensures Get(AuthorizationQuery(rt.env, state), "state") == Some(state)
    ensures var browser := AfterStart(rt, store, returnParam, state, now);
      var d := Decide(rt, query, browser, provider);
      var after := Apply(browser, CallbackCookies(rt, d), now);
      d.outcome == SignedIn(UserOf(data)) &&
      RedirectTarget(d) == GetSafeRedirectUrl(rt, returnParam) &&
      "auth_state" !in after && "auth_return_url" !in after &&
      "user" in after && DecodeUser(after["user"]) == Some(UserOf(data))
  {
    AuthorizationStateAndChallenge(rt.env, state);
    StartCookiesPassStateCheck(rt, store, returnParam, state, code, query, now);
    var browser := AfterStart(rt, store, returnParam, state, now);
    SuccessfulExchangeSignsIn(rt, query, browser, provider, token, data);
    var d := Decide(rt, query, browser, provider);
    SignInCookies(rt, query, browser, provider);
  }

  /**
   * The token request redeems the code received, under the `redirect_uri`
   * the authorization request named (section 4.1.3 of RFC 6749), with the
   * verifier whose `plain` transform is the challenge sent (section 4.6 of
   * RFC 7636).
   */
  lemma TokenRequestMatchesAuthorization(env: Env, state: string, code: string)
    ensures var form := TokenRequestFor(env, code).form;
      var q := AuthorizationQuery(env, state);
      Get(form, "code") == Some(code) &&
      Get(form, "grant_type") == Some("authorization_code") &&
      Get(form, "redirect_uri") == Get(q, "redirect_uri") &&
      Get(form, "code_verifier") == Get(q, "code_challenge") &&
      Get(q, "code_challenge_method") == Some("plain")
  {
    var form := TokenRequestFor(env, code).form;
    assert Get(form, "code") == Some(code) by { GetFirstWins(form, 0); }
    assert Get(form, "grant_type") == Some("authorization_code") by { GetFirstWins(form, 1); }
    assert Get(form, "redirect_uri") == Some(TwitterRedirectUri(env)) by { GetFirstWins(form, 2); }
    assert Get(form, "code_verifier") == Some("challenge") by { GetFirstWins(form, 3); }
    AuthorizationGrantParameters(env, state);
    AuthorizationStateAndChallenge(env, state);
  }

  /**
   * A callback whose state differs from the one the start route stored (the
   * forged request of section 10.12 of RFC 6749) makes no provider call and
   * sets no cookie.
   */
  lemma ForgedStateRejected(rt: Runtime, store: map<string, string>, returnParam: Option<string>, state: string,
                            query: Query, provider: Provider, now: int)
    requires Get(query, "state") != Some(state)
    ensures var d := Decide(rt, query, AfterStart(rt, store, returnParam, state, now), provider);
      d.outcome == InvalidState && d.calls == [] && CallbackCookies(rt, d) == map[]
  {
    assert CookieGet(AfterStart(rt, store, returnParam, state, now), "auth_state") == Some(state);
  }
}
