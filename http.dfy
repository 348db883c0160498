/**
 * The parts of a request and a response the routes touch: query parameters,
 * the response's redirect location and its cookie jar.
 */
module Http {
  import opened Wrappers

  /** Query parameters as URLSearchParams keeps them: name/value pairs in order. */
  type Query = seq<(string, string)>

  /** URLSearchParams.get: the value of the first pair with that name, or null. */
  function Get(q: Query, name: string): Option<string> {
    if q == [] then None
    else if q[0].0 == name then Some(q[0].1)
    else Get(q[1..], name)
  }

  /** `get` answers null exactly when no pair has the name, and otherwise a value stored under it. */
  lemma {:induction false} GetFound(q: Query, name: string)
    ensures Get(q, name).None? <==> forall i :: 0 <= i < |q| ==> q[i].0 != name
    ensures Get(q, name).Some? ==> (name, Get(q, name).value) in q
  {
    if q != [] && q[0].0 != name {
      GetFound(q[1..], name);
      assert forall i :: 1 <= i < |q| ==> q[i] == q[1..][i - 1];
    }
  }

  /** The names of the pairs, in order. */
  function Names(q: Query): (ns: seq<string>)
    ensures |ns| == |q| && forall i :: 0 <= i < |q| ==> ns[i] == q[i].0
  {
    if q == [] then [] else [q[0].0] + Names(q[1..])
  }

  /** `request.cookies.get(name)?.value`. */
  function CookieGet(cookies: map<string, string>, name: string): Option<string> {
    if name in cookies then Some(cookies[name]) else None
  }

  datatype SameSite = Lax | Strict | NoRestriction

  /** The attributes passed to `response.cookies.set`; times are in seconds and epoch milliseconds. */
  datatype CookieOptions = CookieOptions(
    httpOnly: bool,
    secure: bool,
    maxAge: Option<int>,
    expires: Option<int>,
    path: string,
    sameSite: SameSite,
    domain: Option<string>)

  /** One Set-Cookie instruction of a response: a value with attributes, or a deletion. */
  datatype CookieDirective = SetCookie(value: string, options: CookieOptions) | DeleteCookie

  /**
   * Where a redirect points: a string handed to `new URL(target, request.url)`,
   * kept unresolved, or a URL object built from an endpoint and query pairs.
   */
  datatype Location = Target(url: string) | WithQuery(endpoint: string, query: Query)

  /** A URL object whose `searchParams` the caller appends to. */
  class Url {
    const endpoint: string
    var query: Query

    constructor (endpoint: string)
      ensures this.endpoint == endpoint && query == []
    {
      this.endpoint := endpoint;
      query := [];
    }

    /** `searchParams.append(name, value)`: a new pair at the end, duplicates kept. */
    method Append(name: string, value: string)
      modifies this
      ensures query == old(query) + [(name, value)]
    {
      query := query + [(name, value)];
    }
  }

  /** A redirect response (NextResponse.redirect) with its cookie jar. */
  class Response {
    var location: Location
    var cookies: map<string, CookieDirective>

    constructor Redirect(to: Location)
      ensures location == to && cookies == map[]
    {
      location := to;
      cookies := map[];
    }

    /** `response.cookies.set(name, value, options)`: replaces any earlier instruction for that name. */
    method Set(name: string, value: string, options: CookieOptions)
      modifies this
      ensures location == old(location)
      ensures cookies == old(cookies)[name := SetCookie(value, options)]
    {
      cookies := cookies[name := SetCookie(value, options)];
    }

    /** `response.cookies.delete(name)`. */
    method Delete(name: string)
      modifies this
      ensures location == old(location)
      ensures cookies == old(cookies)[name := DeleteCookie]
    {
      cookies := cookies[name := DeleteCookie];
    }
  }

  /** The first pair with a name gives the value `Get` returns, whatever follows it. */
  lemma {:induction false} GetFirstWins(q: Query, i: nat)
    requires i < |q| && forall j :: 0 <= j < i ==> q[j].0 != q[i].0
    ensures Get(q, q[i].0) == Some(q[i].1)
  {
    if i > 0 {
      GetFirstWins(q[1..], i - 1);
    }
  }
}
