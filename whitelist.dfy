/**
 * The redirect allow-list: which return URLs the login and logout routes
 * accept, and the sanitiser that replaces every other value by "/".
 */
module Whitelist {
  import opened Wrappers
  import opened Config

  /** The four fixed origins, in list order. */
  const FixedOrigins: seq<string> :=
    ["https://twi.am", "https://app.twi.am", "https://mbti.twi.am", "https://doodle.twi.am"]

  /** REDIRECT_WHITELIST: the fixed origins followed by NEXT_PUBLIC_APP_URL, which may be unset. */
  function RedirectWhitelist(env: Env): seq<Option<string>> {
    [Some(FixedOrigins[0]), Some(FixedOrigins[1]), Some(FixedOrigins[2]), Some(FixedOrigins[3]), env.appUrl]
  }

  /** `new URL(s)` succeeds. */
  predicate ParsesAbsolute(rt: Runtime, s: string) {
    rt.parsesAbsolute(s)
  }

  /** The callback given to `some`: a falsy entry is skipped, otherwise a raw prefix test. */
  predicate Admits(entry: Option<string>, url: string) {
    Truthy(entry) && entry.value <= url
  }

  /** `entries.some(entry => Admits(entry, url))`, scanning from the front. */
  function SomeAdmits(entries: seq<Option<string>>, url: string): bool {
    if entries == [] then false
    else Admits(entries[0], url) || SomeAdmits(entries[1..], url)
  }

  /** The scan answers true exactly when some entry of the list admits the URL. */
  lemma {:induction false} SomeAdmitsIff(entries: seq<Option<string>>, url: string)
    ensures SomeAdmits(entries, url) <==> exists entry :: entry in entries && Admits(entry, url)
  {
    if entries != [] {
      SomeAdmitsIff(entries[1..], url);
      assert forall entry :: entry in entries <==> entry == entries[0] || entry in entries[1..];
    }
  }

  /** The URL is one a redirect may go to: non-empty, parseable, and prefixed by a defined entry. */
  function IsUrlInWhitelist(rt: Runtime, url: string): (r: bool)
    ensures r <==> url != "" && ParsesAbsolute(rt, url) &&
                   exists entry :: entry in RedirectWhitelist(rt.env) && Truthy(entry) && entry.value <= url
  {
    SomeAdmitsIff(RedirectWhitelist(rt.env), url);
    if url == "" then false
    // `new URL(url)` throws; the catch answers false.
    else if !ParsesAbsolute(rt, url) then false
    else SomeAdmits(RedirectWhitelist(rt.env), url)
  }

  /** getSafeRedirectUrl: the URL itself when it is whitelisted, "/" for everything else. */
  function GetSafeRedirectUrl(rt: Runtime, url: Option<string>): (r: string)
    ensures r == "/" || (url == Some(r) && IsUrlInWhitelist(rt, r))
    ensures url.Some? && IsUrlInWhitelist(rt, url.value) ==> r == url.value
  {
    if !Truthy(url) then "/"
    else if IsUrlInWhitelist(rt, url.value) then url.value
    else "/"
  }

  /** The empty string is never whitelisted. */
  lemma EmptyNeverWhitelisted(rt: Runtime)
    ensures !IsUrlInWhitelist(rt, "")
  {
  }

  /** A string the URL parser rejects is never whitelisted; the parse error does not escape. */
  lemma UnparseableNeverWhitelisted(rt: Runtime, url: string)
    requires !ParsesAbsolute(rt, url)
    ensures !IsUrlInWhitelist(rt, url)
    ensures GetSafeRedirectUrl(rt, Some(url)) == "/"
  {
  }

  /**
   * An unset or empty NEXT_PUBLIC_APP_URL adds nothing: the URLs accepted are
   * exactly those prefixed by one of the fixed origins.
   */
  lemma {:induction false} UnsetAppUrlAddsNothing(rt: Runtime, url: string)
    requires !Truthy(rt.env.appUrl)
    ensures IsUrlInWhitelist(rt, url) <==>
      url != "" && ParsesAbsolute(rt, url) && exists o :: o in FixedOrigins && o <= url
  {
    var w := RedirectWhitelist(rt.env);
    if IsUrlInWhitelist(rt, url) {
      var entry :| entry in w && Truthy(entry) && entry.value <= url;
      assert entry != w[4];
      assert entry.value in FixedOrigins;
    }
    if url != "" && ParsesAbsolute(rt, url) && exists o :: o in FixedOrigins && o <= url {
      var o :| o in FixedOrigins && o <= url;
      assert Some(o) in w;
    }
  }

  /** Absent and empty return URLs both give "/". */
  lemma NullAndEmptyGiveRoot(rt: Runtime)
    ensures GetSafeRedirectUrl(rt, None) == "/"
    ensures GetSafeRedirectUrl(rt, Some("")) == "/"
  {
  }

  /** A result other than "/" is the caller's own URL, unchanged, and it is whitelisted. */
  lemma SafeRedirectIsRootOrWhitelisted(rt: Runtime, url: Option<string>)
    requires !ParsesAbsolute(rt, "/")
    ensures var r := GetSafeRedirectUrl(rt, url);
      (r == "/" && !IsUrlInWhitelist(rt, r)) || (url == Some(r) && IsUrlInWhitelist(rt, r))
  {
  }

  /** Sanitising twice is sanitising once. */
  lemma SafeRedirectIdempotent(rt: Runtime, url: Option<string>)
    ensures GetSafeRedirectUrl(rt, Some(GetSafeRedirectUrl(rt, url))) == GetSafeRedirectUrl(rt, url)
  {
  }

  /** A URL passes through unchanged exactly when it is "/" or whitelisted. */
  lemma SafeRedirectFixpoints(rt: Runtime, url: string)
    ensures GetSafeRedirectUrl(rt, Some(url)) == url <==> url == "/" || IsUrlInWhitelist(rt, url)
  {
  }

  /**
   * The comparison is on the raw string, not on the parsed host: a look-alike
   * host that merely begins with an allowed origin is accepted once it parses.
   */
  lemma LookalikeHostAccepted(rt: Runtime)
    requires ParsesAbsolute(rt, "https://twi.am.evil.com")
    ensures IsUrlInWhitelist(rt, "https://twi.am.evil.com")
    ensures GetSafeRedirectUrl(rt, Some("https://twi.am.evil.com")) == "https://twi.am.evil.com"
  {
    assert Some("https://twi.am") in RedirectWhitelist(rt.env);
  }
}
