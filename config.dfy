/**
 * The deployment configuration the authentication routes read from the
 * process environment, and the few JavaScript coercions they apply to it.
 */
module Config {
  import opened Wrappers

  /** One field per environment variable; `None` is a variable that is not set. */
  datatype Env = Env(
    appUrl: Option<string>,        // NEXT_PUBLIC_APP_URL
    clientId: Option<string>,      // TWITTER_CLIENT_ID
    clientSecret: Option<string>,  // TWITTER_CLIENT_SECRET
    redirectUri: Option<string>,   // TWITTER_REDIRECT_URI
    rootDomain: Option<string>,    // ROOT_DOMAIN
    nodeEnv: Option<string>)       // NODE_ENV

  /**
   * The environment together with the platform's URL parser: `parsesAbsolute(s)`
   * holds when `new URL(s)` (no base) returns instead of throwing.
   */
  datatype Runtime = Runtime(env: Env, parsesAbsolute: string -> bool)

  /** JavaScript truthiness of a string that may be undefined: set and not empty. */
  predicate Truthy(v: Option<string>) {
    v.Some? && v.value != ""
  }

  /** The expression `v || fallback`. */
  function OrElse(v: Option<string>, fallback: string): string {
    if Truthy(v) then v.value else fallback
  }

  /** `${v}` in a template literal, or `String(v)`: an unset value reads "undefined". */
  function Interpolate(v: Option<string>): string {
    match v
    case None => "undefined"
    case Some(s) => s
  }

  /** TWITTER_REDIRECT_URI, or the callback route under NEXT_PUBLIC_APP_URL. */
  function TwitterRedirectUri(env: Env): string {
    OrElse(env.redirectUri, Interpolate(env.appUrl) + "/api/auth/twitter/callback")
  }

  /** ROOT_DOMAIN, defaulting to "twi.am". */
  function RootDomain(env: Env): string {
    OrElse(env.rootDomain, "twi.am")
  }

  /** The cookie `secure` flag: `process.env.NODE_ENV === 'production'`. */
  predicate Secure(env: Env) {
    env.nodeEnv == Some("production")
  }

  /** An unset or empty ROOT_DOMAIN falls back to "twi.am", so the cookie domain is never empty. */
  lemma RootDomainDefault(env: Env)
    ensures !Truthy(env.rootDomain) ==> RootDomain(env) == "twi.am"
    ensures Truthy(env.rootDomain) ==> RootDomain(env) == env.rootDomain.value
    ensures RootDomain(env) != ""
  {
  }

  /** An unset or empty TWITTER_REDIRECT_URI falls back to the callback route under the app URL. */
  lemma RedirectUriDefault(env: Env)
    ensures !Truthy(env.redirectUri) ==>
      TwitterRedirectUri(env) == Interpolate(env.appUrl) + "/api/auth/twitter/callback"
    ensures env.redirectUri == None && env.appUrl == None ==>
      TwitterRedirectUri(env) == "undefined/api/auth/twitter/callback"
  {
  }
}
