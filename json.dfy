/**
 * The `user` cookie's value: JSON.stringify of the `user` record (a flat
 * object of string properties), and the JSON.parse reading that the client
 * applies to it.
 */
module Json {
  import opened Wrappers

  /** The object's properties as JSON.stringify visits them: name/value in insertion order. */
  type Members = seq<(string, string)>

  /** A lower-case hexadecimal digit for 0 <= k < 16. */
  function HexDigit(k: int): char
    requires 0 <= k < 16
  {
    if k < 10 then ('0' as int + k) as char else ('a' as int + k - 10) as char
  }

  /** The escape JSON.stringify writes for one character of a string (QuoteJSONString). */
  function EscapeChar(c: char): string {
    if c == '"' then ['\\', '"']
    else if c == '\\' then ['\\', '\\']
    else if c == 8 as char then ['\\', 'b']
    else if c == 9 as char then ['\\', 't']
    else if c == 10 as char then ['\\', 'n']
    else if c == 12 as char then ['\\', 'f']
    else if c == 13 as char then ['\\', 'r']
    else if c < ' ' then ['\\', 'u', '0', '0', HexDigit(c as int / 16), HexDigit(c as int % 16)]
    else [c]
  }

  function Escape(s: string): string {
    if s == [] then [] else EscapeChar(s[0]) + Escape(s[1..])
  }

  /** One property as JSON.stringify writes it, `"name":"value"`, followed by the rest of the text. */
  function Member(m: (string, string), rest: string): string {
    ['"'] + (Escape(m.0) + (['"'] + ([':'] + (['"'] + (Escape(m.1) + (['"'] + rest))))))
  }

  /** The members separated by commas, followed by `end`. */
  function EncodeMembers(ms: Members, end: string): string {
    if ms == [] then end
    else Member(ms[0], if |ms| == 1 then end else [','] + EncodeMembers(ms[1..], end))
  }

  /** JSON.stringify of a flat object of strings. */
  function EncodeObject(ms: Members): string {
    ['{'] + EncodeMembers(ms, ['}'])
  }

  // ---- JSON.parse, restricted to flat objects of strings ----

  function HexValue(d: char): (r: Option<int>)
    ensures r.Some? ==> 0 <= r.value < 16
  {
    if '0' <= d <= '9' then Some(d as int - '0' as int)
    else if 'a' <= d <= 'f' then Some(d as int - 'a' as int + 10)
    else if 'A' <= d <= 'F' then Some(d as int - 'A' as int + 10)
    else None
  }

  /** The character of a \uXXXX escape; a lone surrogate is not a character here. */
  function Hex4(h: string): Option<char>
    requires |h| == 4
  {
    match (HexValue(h[0]), HexValue(h[1]), HexValue(h[2]), HexValue(h[3]))
    case (Some(a), Some(b), Some(c), Some(d)) =>
      var v := 4096 * a + 256 * b + 16 * c + d;
      if 0xD800 <= v < 0xE000 then None else Some(v as char)
    case _ => None
  }

  /** The character a two-character escape stands for. */
  function ShortUnescape(e: char): Option<char> {
    if e == '"' then Some('"')
    else if e == '\\' then Some('\\')
    else if e == '/' then Some('/')
    else if e == 'b' then Some(8 as char)
    else if e == 't' then Some(9 as char)
    else if e == 'n' then Some(10 as char)
    else if e == 'f' then Some(12 as char)
    else if e == 'r' then Some(13 as char)
    else None
  }

  function Prepend(c: char, r: Option<(string, string)>): Option<(string, string)> {
    match r
    case None => None
    case Some((body, rest)) => Some(([c] + body, rest))
  }

  /**
   * Reads a string literal after its opening quote: the decoded text and what
   * follows the closing quote, or None when the literal is malformed.
   */
  function Unquote(s: string): (r: Option<(string, string)>)
    ensures r.Some? ==> |r.value.1| < |s|
    decreases |s|
  {
    if s == [] then None
    else if s[0] == '"' then Some(([], s[1..]))
    else if s[0] == '\\' then
      if |s| < 2 then None
      else if s[1] == 'u' then
        if |s| < 6 then None
        else match Hex4(s[2..6])
          case None => None
          case Some(c) => Prepend(c, Unquote(s[6..]))
      else match ShortUnescape(s[1])
        case None => None
        case Some(c) => Prepend(c, Unquote(s[2..]))
    else if s[0] < ' ' then None
    else Prepend(s[0], Unquote(s[1..]))
  }

  /** Reads `"name":"value"` members separated by commas, up to the closing brace. */
  function ParseMembers(s: string): Option<Members>
    decreases |s|, 0
  {
    if s == [] || s[0] != '"' then None
    else match Unquote(s[1..])
      case None => None
      case Some((k, t)) =>
        if |t| < 2 || t[0] != ':' || t[1] != '"' then None
        else match Unquote(t[2..])
          case None => None
          case Some((v, u)) => AfterMember(k, v, u)
  }

  /** What follows one member `k:v`: the closing brace, or a comma and further members. */
  function AfterMember(k: string, v: string, u: string): Option<Members>
    decreases |u|, 1
  {
    if u == ['}'] then Some([(k, v)])
    else if u != [] && u[0] == ',' then
      match ParseMembers(u[1..])
      case None => None
      case Some(more) => Some([(k, v)] + more)
    else None
  }

  function DecodeObject(s: string): Option<Members> {
    if s == ['{', '}'] then Some([])
    else if s != [] && s[0] == '{' then ParseMembers(s[1..])
    else None
  }

  // ---- round trip ----

  lemma HexDigitValue(k: int)
    requires 0 <= k < 16
    ensures HexValue(HexDigit(k)) == Some(k)
  {
  }

  /** One escaped character reads back as that character. */
  lemma UnquoteEscapeChar(c: char, t: string)
    ensures Unquote(EscapeChar(c) + t) == Prepend(c, Unquote(t))
  {
    var s := EscapeChar(c) + t;
    if c == '"' || c == '\\' || c == 8 as char || c == 9 as char || c == 10 as char || c == 12 as char || c == 13 as char {
      assert s[2..] == t;
    } else if c < ' ' {
      var n := c as int;
      HexDigitValue(n / 16);
      HexDigitValue(n % 16);
      assert s[2..6] == ['0', '0', HexDigit(n / 16), HexDigit(n % 16)];
      assert s[6..] == t;
    } else {
      assert s[1..] == t;
    }
  }

  /** An escaped text followed by a closing quote reads back as the text and what follows. */
  lemma {:induction false} UnquoteEscape(s: string, rest: string)
    ensures Unquote(Escape(s) + (['"'] + rest)) == Some((s, rest))
  {
    if s != [] {
      assert Escape(s) + (['"'] + rest) == EscapeChar(s[0]) + (Escape(s[1..]) + (['"'] + rest));
      UnquoteEscapeChar(s[0], Escape(s[1..]) + (['"'] + rest));
      UnquoteEscape(s[1..], rest);
      assert [s[0]] + s[1..] == s;
    } else {
      assert Escape(s) + (['"'] + rest) == ['"'] + rest;
    }
  }

  lemma ParseMembersStep(s: string, k: string, t: string, v: string, u: string)
    requires s != [] && s[0] == '"' && Unquote(s[1..]) == Some((k, t))
    requires |t| >= 2 && t[0] == ':' && t[1] == '"' && Unquote(t[2..]) == Some((v, u))
    ensures ParseMembers(s) == AfterMember(k, v, u)
  {
  }

  /** One encoded member reads back as its name and value, then parsing goes on with what follows. */
  lemma ParseMember(k: string, v: string, rest: string)
    ensures ParseMembers(Member((k, v), rest)) == AfterMember(k, v, rest)
  {
    var t := [':'] + (['"'] + (Escape(v) + (['"'] + rest)));
    UnquoteEscape(k, t);
    UnquoteEscape(v, rest);
    assert t[2..] == Escape(v) + (['"'] + rest);
    ParseMembersStep(Member((k, v), rest), k, t, v, rest);
  }

  lemma {:induction false} ParseEncodedMembers(ms: Members)
    requires ms != []
    ensures ParseMembers(EncodeMembers(ms, ['}'])) == Some(ms)
  {
    var m := ms[0];
    if |ms| == 1 {
      ParseMember(m.0, m.1, ['}']);
      assert ms == [(m.0, m.1)];
    } else {
      var more := EncodeMembers(ms[1..], ['}']);
      ParseMember(m.0, m.1, [','] + more);
      assert ([','] + more)[1..] == more;
      ParseEncodedMembers(ms[1..]);
      assert [(m.0, m.1)] + ms[1..] == ms;
    }
  }

  /** Parsing what JSON.stringify wrote gives back the same members in the same order. */
  lemma DecodeEncodeObject(ms: Members)
    ensures DecodeObject(EncodeObject(ms)) == Some(ms)
  {
    var s := EncodeObject(ms);
    if ms != [] {
      assert s[1..] == EncodeMembers(ms, ['}']);
      assert s[1] == '"';
      ParseEncodedMembers(ms);
    }
  }

  // ---- the user record ----

  /** The `user` record; a property read from an absent profile field is undefined. */
  datatype User = User(id: Option<string>, name: Option<string>, profileImage: Option<string>)

  /** An undefined property is left out of the JSON text. */
  function Field(key: string, v: Option<string>): Members {
    if v.Some? then [(key, v.value)] else []
  }

  /** The properties JSON.stringify visits, in the record's declaration order. */
  function UserMembers(u: User): Members {
    Field("id", u.id) + Field("name", u.name) + Field("profileImage", u.profileImage)
  }

  /** `JSON.stringify(user)`. */
  function EncodeUser(u: User): string {
    EncodeObject(UserMembers(u))
  }

  /** The value JSON.parse gives a property: the last member with that name. */
  function Lookup(ms: Members, key: string): Option<string> {
    if ms == [] then None
    else
      var later := Lookup(ms[1..], key);
      if later.Some? then later
      else if ms[0].0 == key then Some(ms[0].1)
      else None
  }

  /** `JSON.parse(cookie)` read as a `user` record. */
  function DecodeUser(s: string): Option<User> {
    match DecodeObject(s)
    case None => None
    case Some(ms) => Some(User(Lookup(ms, "id"), Lookup(ms, "name"), Lookup(ms, "profileImage")))
  }

  lemma {:induction false} LookupAppend(a: Members, b: Members, key: string)
    ensures Lookup(a + b, key) == if Lookup(b, key).Some? then Lookup(b, key) else Lookup(a, key)
  {
    if a != [] {
      assert (a + b)[1..] == a[1..] + b;
      LookupAppend(a[1..], b, key);
    } else {
      assert a + b == b;
    }
  }

  lemma LookupField(key: string, v: Option<string>, wanted: string)
    ensures Lookup(Field(key, v), wanted) == if key == wanted then v else None
  {
  }

  /** Each property of the record reads back from its members as the record's own value. */
  lemma LookupUserMembers(u: User, key: string, v: Option<string>)
    requires (key == "id" && v == u.id) || (key == "name" && v == u.name) ||
             (key == "profileImage" && v == u.profileImage)
    ensures Lookup(UserMembers(u), key) == v
  {
    var a, b, c := Field("id", u.id), Field("name", u.name), Field("profileImage", u.profileImage);
    LookupAppend(a + b, c, key);
    LookupAppend(a, b, key);
    LookupField("id", u.id, key);
    LookupField("name", u.name, key);
    LookupField("profileImage", u.profileImage, key);
  }

  /**
   * The cookie text reads back as exactly the record that was written, and
   * holds no property other than id, name and profileImage.
   */
  lemma UserRoundTrip(u: User)
    ensures DecodeUser(EncodeUser(u)) == Some(u)
    ensures forall m :: m in UserMembers(u) ==> m.0 == "id" || m.0 == "name" || m.0 == "profileImage"
    ensures DecodeObject(EncodeUser(u)).Some? &&
      forall m :: m in DecodeObject(EncodeUser(u)).value ==> m.0 == "id" || m.0 == "name" || m.0 == "profileImage"
  {
    DecodeEncodeObject(UserMembers(u));
    LookupUserMembers(u, "id", u.id);
    LookupUserMembers(u, "name", u.name);
    LookupUserMembers(u, "profileImage", u.profileImage);
  }
}
