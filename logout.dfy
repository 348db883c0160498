/** GET /api/auth/logout: redirect to the sanitised return URL and expire the `user` cookie domain-wide. */
module Logout {
  import opened Wrappers
  import opened Config
  import opened Whitelist
  import opened Http
  import opened Browser

  /** Options of the overwriting cookie: expired at the epoch, site-wide, scoped to ROOT_DOMAIN. */
  function LogoutOptions(env: Env): CookieOptions {
    CookieOptions(false, Secure(env), None, Some(0), "/", Lax, Some(RootDomain(env)))
  }

  /** The response's only cookie instruction. */
  function LogoutCookies(env: Env): map<string, CookieDirective> {
    map["user" := SetCookie("", LogoutOptions(env))]
  }

  /**
   * The route handler; `fault` says that framework code inside the try block
   * threw, in which case the response under construction is discarded.
   */
  method HandleLogout(rt: Runtime, query: Query, fault: bool) returns (r: Response)
    ensures fresh(r)
    ensures !fault ==> r.location == Target(GetSafeRedirectUrl(rt, Get(query, "returnUrl")))
    ensures !fault ==> r.cookies == LogoutCookies(rt.env)
    ensures fault ==> r.location == Target("/") && r.cookies == map[]
  {
    var returnUrl := GetSafeRedirectUrl(rt, Get(query, "returnUrl"));
    r := new Response.Redirect(Target(returnUrl));
    r.Set("user", "", LogoutOptions(rt.env));
    if fault {
      r := new Response.Redirect(Target("/"));
    }
  }

  /** The logout redirect goes to "/" or to the caller's return URL when it is whitelisted. */
  lemma LogoutTargetSafe(rt: Runtime, query: Query)
    requires !ParsesAbsolute(rt, "/")
    ensures var t := GetSafeRedirectUrl(rt, Get(query, "returnUrl"));
      (t == "/" && !IsUrlInWhitelist(rt, t)) || (Get(query, "returnUrl") == Some(t) && IsUrlInWhitelist(rt, t))
  {
    SafeRedirectIsRootOrWhitelisted(rt, Get(query, "returnUrl"));
  }

  /**
   * The `user` cookie is overwritten with the empty string, expiring at the
   * epoch, with path "/" and the root domain ("twi.am" when ROOT_DOMAIN is
   * unset); no other cookie is named.
   */
  lemma LogoutCookieShape(env: Env)
    ensures LogoutCookies(env).Keys == {"user"}
    ensures var d := LogoutCookies(env)["user"];
      d.SetCookie? && d.value == "" && d.options.expires == Some(0) && d.options.maxAge == None &&
      d.options.path == "/" && d.options.domain == Some(RootDomain(env)) && !d.options.httpOnly &&
      d.options.sameSite == Lax && d.options.secure == Secure(env) &&
      (!Truthy(env.rootDomain) ==> d.options.domain == Some("twi.am"))
  {
  }

  /**
   * At any time after the epoch the name-keyed store drops `user`, whether or
   * not it held one, and keeps every other cookie as it was.
   */
  lemma LogoutClearsOnlyUser(env: Env, store: map<string, string>, now: int)
    requires now > 0
    ensures var after := Apply(store, LogoutCookies(env), now);
      "user" !in after &&
      forall n :: n != "user" ==> (n in after <==> n in store) && (n in store ==> after[n] == store[n])
  {
    assert !Keeps(LogoutCookies(env)["user"], now);
  }

  /** Logging out twice leaves the browser as logging out once: without a session only the redirect remains. */
  lemma LogoutIdempotent(env: Env, store: map<string, string>, now: int)
    requires now > 0
    ensures Apply(Apply(store, LogoutCookies(env), now), LogoutCookies(env), now) == Apply(store, LogoutCookies(env), now)
    ensures "user" !in store ==> Apply(store, LogoutCookies(env), now) == store
  {
    LogoutClearsOnlyUser(env, store, now);
    LogoutClearsOnlyUser(env, Apply(store, LogoutCookies(env), now), now);
  }
}
