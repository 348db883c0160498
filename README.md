# twi.am sign-in routes: a Dafny model

This project models the sign-in and sign-out routes of the twi.am landing
site. There are three pieces:

- **The redirect allow-list.** `isUrlInWhitelist` and `getSafeRedirectUrl`
  decide where the site may send the browser after login or logout.
- **The OAuth2 authorization-code handshake with X/Twitter.** The start route
  builds the authorization URL and sets two short-lived cookies, `auth_state`
  and `auth_return_url`. The callback route checks the echoed `state`,
  exchanges the code for a token, fetches the profile and sets the `user`
  cookie.
- **The logout route.** It expires the `user` cookie across the root domain.

Each route is a method that builds a `Response` object: a redirect location
plus a cookie jar that `Set` and `Delete` update in place. The method is
proved against pure functions of the request (`StartCookies`,
`Callback.Decide`, `CallbackCookies`, `LogoutCookies`), and the lemmas are
stated over those functions.

Most behaviour comes from outside the routes, so the model takes it as input:

- **Provider.** Its two endpoints are a `Provider` value: total functions from
  the request to a `Reply`. A reply is one of three things: unreachable; a
  status whose body could not be read; or a status with a readable body that
  is JSON or not. The callback handler also returns the list of provider
  calls it made (`Callback.Decide(...).calls`), so "never reaches the token
  exchange" is a statement about that list. The start and logout routes call
  no provider.
- **URL parsing.** The parser is the function field `Runtime.parsesAbsolute`.
  Where a lemma needs it, it assumes only that `"/"` does not parse.
- **Environment variables.** They are `Config.Env` fields, with JavaScript's
  coercions kept:
  - `||` treats an empty variable as unset.
  - An unset value interpolated into a string reads `"undefined"`.
  - An allow-list entry that is unset or empty is skipped.
- **The browser.** `Browser.Apply` is a simplified cookie store that keys
  cookies by name alone: Max-Age wins over Expires, and an expired
  instruction evicts the cookie. It lets "already expired" and "deleted" be
  stated as effects. It ignores cookie domains and paths.
- **The `user` cookie value.** It is `JSON.stringify` of the record (module
  `Json`), with a matching `JSON.parse` reader.

Every comparison is the code's raw string-prefix test. So
`https://twi.am.evil.com` passes as soon as it parses, and
`Whitelist.LookalikeHostAccepted` proves it. The model keeps that behaviour.

Some further facts the model takes from the code:

- The `user` record holds only `id`, `name` and `profileImage`.
- An allowed URL must also parse as an absolute URL, and an empty allow-list
  entry is skipped.
- The routes are `/api/auth/twitter`, `/api/auth/twitter/callback` and
  `/api/auth/logout`.

## Model

| member | source | states |
|---|---|---|
| `Whitelist.SomeAdmitsIff` | lib/whitelist.ts:28-34 | the `some` scan over the list is true exactly when some entry is defined, non-empty and a raw prefix of the URL |
| `Whitelist.IsUrlInWhitelist` | lib/whitelist.ts:23-40 | a URL is whitelisted iff it is non-empty, parses as an absolute URL and starts with a defined entry of REDIRECT_WHITELIST; a parse failure is an answer of false, not an error |
| `Whitelist.GetSafeRedirectUrl` | lib/whitelist.ts:47-51 | the result is "/" or the caller's own URL when it is whitelisted, and a whitelisted URL is always returned unchanged |
| `Whitelist.EmptyNeverWhitelisted` | lib/whitelist.ts:24 | the empty string is never whitelisted |
| `Whitelist.UnparseableNeverWhitelisted` | lib/whitelist.ts:26-39 | a string the URL parser rejects is never whitelisted and sanitises to "/" |
| `Whitelist.UnsetAppUrlAddsNothing` | lib/whitelist.ts:15-33 | with NEXT_PUBLIC_APP_URL unset or empty, the accepted URLs are exactly the parseable ones prefixed by one of the four fixed origins |
| `Whitelist.NullAndEmptyGiveRoot` | lib/whitelist.ts:48 | a null or empty return URL sanitises to "/" |
| `Whitelist.SafeRedirectIsRootOrWhitelisted` | lib/whitelist.ts:47-51 | the result is either "/" (itself not whitelisted) or the input unchanged and whitelisted |
| `Whitelist.SafeRedirectIdempotent` | lib/whitelist.ts:47-51 | sanitising a sanitised URL returns it unchanged |
| `Whitelist.SafeRedirectFixpoints` | lib/whitelist.ts:50 | a URL passes through unchanged exactly when it is "/" or whitelisted |
| `Whitelist.LookalikeHostAccepted` | lib/whitelist.ts:33 | the raw prefix test accepts `https://twi.am.evil.com` once it parses |
| `Config.RootDomainDefault` | app/api/auth/logout/route.ts:5 | the cookie domain is ROOT_DOMAIN when set and non-empty, otherwise "twi.am", and never empty |
| `Config.RedirectUriDefault` | app/api/auth/twitter/route.ts:6-7 | without TWITTER_REDIRECT_URI the callback URI is the app URL (or "undefined") followed by /api/auth/twitter/callback |
| `Http.GetFound` | app/api/auth/twitter/callback/route.ts:13-14 | `searchParams.get` gives null exactly when no parameter has the name, otherwise a value stored under it |
| `Http.GetFirstWins` | app/api/auth/twitter/callback/route.ts:13-14 | `searchParams.get` returns the value of the first parameter with the name |
| `Initiation.Start` | app/api/auth/twitter/route.ts:17-59 | the response redirects to the authorization endpoint with the seven query pairs and sets exactly the two transient cookies; on a fault it redirects to /?authError=true with no cookies |
| `Initiation.ScopesValue` | app/api/auth/twitter/route.ts:10 | the scope string is "users.read tweet.read" |
| `Initiation.AuthorizationQueryOrder` | app/api/auth/twitter/route.ts:29-36 | the parameters appear in the order response_type, client_id, redirect_uri, scope, state, code_challenge, code_challenge_method |
| `Initiation.AuthorizationGrantParameters` | app/api/auth/twitter/route.ts:30-33 | response_type is "code"; client_id, redirect_uri and scope read back as the configured values |
| `Initiation.AuthorizationStateAndChallenge` | app/api/auth/twitter/route.ts:34-36 | the state parameter is the generated state; the PKCE challenge is "challenge" with method "plain" |
| `Initiation.StartCookiesMatchRequest` | app/api/auth/twitter/route.ts:20-47 | the auth_state cookie equals the state sent to the provider; auth_return_url holds the sanitised returnUrl, so it is "/" or the whitelisted parameter itself |
| `Initiation.TransientCookieOptions` | app/api/auth/twitter/route.ts:40-53 | only the two transient cookies are set, each http-only, path "/", SameSite lax, maxAge 600, secure iff NODE_ENV is production |
| `Callback.Decide` | app/api/auth/twitter/callback/route.ts:12-83 | the return URL is always the re-sanitised `auth_return_url` cookie; the outcome is invalid_state exactly when the state check fails, and exactly then no provider call is made |
| `Callback.HandleCallback` | app/api/auth/twitter/callback/route.ts:10-89 | the response's location and cookie jar are those of the decided outcome, and the returned call list is the decided one; only a sign-in deletes the transient cookies and sets `user` |
| `Callback.ReturnUrlResanitised` | app/api/auth/twitter/callback/route.ts:17-21 | the return URL is the stored cookie re-sanitised; a missing cookie gives "/"; anything else is the cookie's whitelisted value |
| `Callback.ExchangedCalls` | app/api/auth/twitter/callback/route.ts:27-62 | the token request goes out first; the profile is fetched with the bearer token only after an OK JSON token reply; token_error iff the token reply has a readable body and is not OK |
| `Callback.ExchangeOnlyAfterStateCheck` | app/api/auth/twitter/callback/route.ts:23-25 | the token endpoint is called iff code and state are present and state equals the auth_state cookie; otherwise invalid_state, no cookie change |
| `Callback.MissingStateCookieRejected` | app/api/auth/twitter/callback/route.ts:17-25 | without an auth_state cookie the request is rejected before any provider call |
| `Callback.TokenErrorSkipsProfile` | app/api/auth/twitter/callback/route.ts:42-45 | after an accepted state, a non-OK token reply with a readable body redirects with token_error, makes no profile call and sets no cookie; conversely token_error comes only from a non-OK token reply |
| `Callback.UserInfoErrorSetsNoUser` | app/api/auth/twitter/callback/route.ts:58-61 | after an accepted state and an OK JSON token reply, a non-OK profile reply with a readable body redirects with user_info_error and sets no cookie; conversely user_info_error comes only from a non-OK profile reply |
| `Callback.RedirectTargets` | app/api/auth/twitter/callback/route.ts:24-88 | each failure appends its own authError marker to the return URL; an unexpected error goes to /?authError=true; the markers are distinct |
| `Callback.SignInJar` | app/api/auth/twitter/callback/route.ts:72-83 | a sign-in's jar deletes auth_state and auth_return_url and sets `user` to text that reads back as the record, with the `user` cookie options; it names no other cookie |
| `Callback.SignInCookies` | app/api/auth/twitter/callback/route.ts:64-83 | a sign-in carries data.id, data.name and data.profile_image_url; the jar deletes both transient cookies and sets `user` to text that reads back as exactly that record, with the `user` cookie options |
| `Callback.SuccessfulExchangeSignsIn` | app/api/auth/twitter/callback/route.ts:23-74 | an accepted state, an OK token reply with a JSON body, and an OK profile reply whose JSON body has `data` always sign the user in with that data |
| `Callback.UserCookieAttributes` | app/api/auth/twitter/callback/route.ts:77-83 | the `user` instruction a sign-in puts in the response is a set that is not http-only, has path "/", SameSite lax, maxAge 2592000 seconds, no Domain, and is secure iff NODE_ENV is production |
| `Json.DecodeEncodeObject` | app/api/auth/twitter/callback/route.ts:77 | parsing JSON.stringify's text of a flat string object gives back the same members in order |
| `Json.UserRoundTrip` | app/api/auth/twitter/callback/route.ts:65-77 | the `user` cookie text decodes to exactly the record written, and the object parsed from that text has no property besides id, name and profileImage |
| `Logout.HandleLogout` | app/api/auth/logout/route.ts:7-34 | the response redirects to the sanitised returnUrl and overwrites only `user`; on a fault it redirects to "/" with no cookies |
| `Logout.LogoutTargetSafe` | app/api/auth/logout/route.ts:10-16 | the logout redirect is "/" or the whitelisted returnUrl itself |
| `Logout.LogoutCookieShape` | app/api/auth/logout/route.ts:20-27 | `user` is set to "" with expiry at the epoch, path "/", domain ROOT_DOMAIN ("twi.am" by default), not http-only, SameSite lax, secure iff NODE_ENV is production; no other cookie is named |
| `Logout.LogoutClearsOnlyUser` | app/api/auth/logout/route.ts:18-28 | in the name-keyed store, the epoch-expired instruction evicts `user`, whether or not it was there, and leaves every other cookie unchanged |
| `Logout.LogoutIdempotent` | app/api/auth/logout/route.ts:18-28 | in the name-keyed store, logging out twice leaves the same cookies as once; without a session the cookies are untouched |
| `LoginFlow.StartCookiesPassStateCheck` | app/api/auth/twitter/callback/route.ts:17-23 | for any callback query whose `code` and `state` read back as a non-empty code and the state sent, the cookies left by the start route pass the state check and resolve to the same return URL |
| `LoginFlow.LoginRoundTrip` | app/api/auth/twitter/callback/route.ts:17-85 | start, then a callback whose query (in any order, with any other parameters) reads back the code and the echoed state, with an OK (2xx) JSON token reply and an OK profile reply whose JSON has `data`: signed in, redirected to the start's sanitised returnUrl, `user` present and transient cookies gone |
| `LoginFlow.TokenRequestMatchesAuthorization` | app/api/auth/twitter/callback/route.ts:34-39 | the token form redeems the code received with grant_type authorization_code, repeats the authorization request's redirect_uri, and sends as code_verifier the code_challenge sent under method plain |
| `LoginFlow.ForgedStateRejected` | app/api/auth/twitter/callback/route.ts:23-25 | a callback whose state differs from the stored one makes no provider call and sets no cookie |

## Left out

- URL parsing (`new URL`) is an abstract predicate. Resolving a redirect against `request.url` is not modelled either: locations stay unresolved strings.
- The authorization URL is kept as an endpoint plus its list of query pairs. Its percent-encoded serialisation is not modelled.
- The HTTP calls are abstract replies. Not modelled: the endpoint URLs, the `Content-Type` header, base64 of the Basic credentials (kept as `id:secret`), and `console.error`. A reply body that is not JSON is modelled (`Answered` with `json == None`, which leads to the unexpected-error redirect), but the text of the replies and its parsing are not.
- `generateState` (`Math.random`) is an input. The model does not claim that two logins get different states, because the code does not guarantee it.
- Exceptions from framework code in the start and logout routes are a `fault` input. The model does not say which call throws. It only says that the response being built is discarded.
- In the callback, the framework calls `NextResponse.redirect`, `cookies.get`, `cookies.delete` and `cookies.set` are assumed not to throw. A provider reply whose body cannot be read is modelled, as `Reply.Unread`, and leads to the `/?authError=true` redirect.
- `Browser.Apply` does not age cookies: a positive Max-Age never expires. So a callback arriving after the transient cookies' 600-second lifetime cannot be stated.
- `response.cookies.delete` is a `DeleteCookie` instruction. The Set-Cookie header the framework writes for it is not modelled. The framework's encoding of cookie values and the redirect status code are not modelled either.
- `Browser.Apply` keys cookies by name alone. Section 5.3 of RFC 6265 (step 11) replaces a stored cookie only when its name, domain and path all match. The callback sets `user` without a Domain, so the browser stores it as host-only for the request host. Logout's `Domain=ROOT_DOMAIN` cookie therefore evicts it only when the routes are served from exactly ROOT_DOMAIN. Domain and path matching are not modelled.
- Logout.LogoutClearsOnlyUser: holds only in the name-keyed store. For a real browser it also assumes that the request host is exactly ROOT_DOMAIN (see the line above).
- Logout.LogoutIdempotent: holds only in the name-keyed store. For a real browser it assumes that the request host is exactly ROOT_DOMAIN, as for LogoutClearsOnlyUser.
- Profile fields are taken to be strings or missing. JSON numbers, null and lone surrogates in names are outside the model.
- The `await` points run in order and nothing is shared between requests, so concurrency is not modelled.
- The UI components, `lib/config.ts` and `tailwind.config.ts` are not part of this model.
