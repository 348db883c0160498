/**
 * A simplified browser cookie store for one host, keyed by cookie name alone:
 * what it holds after it processes a response's cookie instructions. Unlike
 * section 5.3 of RFC 6265, it does not tell apart cookies of the same name
 * with different domains or paths.
 */
module Browser {
  import opened Wrappers
  import opened Http

  /** Max-Age takes precedence over Expires; a non-positive Max-Age or a past Expires evicts. */
  predicate Expired(o: CookieOptions, now: int) {
    if o.maxAge.Some? then o.maxAge.value <= 0
    else o.expires.Some? && o.expires.value <= now
  }

  /** The instruction leaves a cookie stored. */
  predicate Keeps(d: CookieDirective, now: int) {
    d.SetCookie? && !Expired(d.options, now)
  }

  /** The store after the instructions of one response, at time `now` (epoch milliseconds). */
  function Apply(store: map<string, string>, jar: map<string, CookieDirective>, now: int): (s: map<string, string>)
    ensures forall n :: n !in jar ==> (n in s <==> n in store) && (n in store ==> s[n] == store[n])
    ensures forall n :: n in jar ==> (n in s <==> Keeps(jar[n], now)) && (n in s ==> s[n] == jar[n].value)
  {
    map n | n in store.Keys + jar.Keys && (n in jar ==> Keeps(jar[n], now)) ::
      if n in jar then jar[n].value else store[n]
  }
}
