/** What both `protect` middlewares share: reading a bearer token out of the
    Authorization header, the JWT and user-lookup oracles, and the request
    object whose `user` field they set. */
module Identity {
  import opened Wrappers
  import opened Guards

  /** Index of the first space in `s`, if it has one. */
  function FirstSpace(s: string): (r: Option<nat>)
    ensures r.Some? ==> r.value < |s| && s[r.value] == ' ' && ' ' !in s[..r.value]
    ensures r.None? <==> ' ' !in s
  {
    if |s| == 0 then None
    else if s[0] == ' ' then Some(0)
    else
      match FirstSpace(s[1..])
      case None => None
      case Some(k) =>
        assert s[..k + 1] == [s[0]] + s[1..][..k];
        Some(k + 1)
  }

  /** `s.split(" ")[1]`: the text after the first space up to the next space or
      the end; undefined when `s` holds no space. */
  function SecondField(s: string): (r: Option<string>)
    ensures r.None? <==> ' ' !in s
    ensures r.Some? ==> ' ' !in r.value
  {
    match FirstSpace(s)
    case None => None
    case Some(i) =>
      var rest := s[i + 1..];
      match FirstSpace(rest)
      case None => Some(rest)
      case Some(j) => Some(rest[..j])
  }

  /** The token both middlewares take from the header: the header must start
      with "Bearer" (no delimiter is checked) and the token is its second
      space-separated field. */
  function BearerToken(authorization: Option<string>): (t: Option<string>)
    ensures t.Some? ==> authorization.Some? && "Bearer" <= authorization.value && ' ' !in t.value
    ensures authorization.Some? && "Bearer" <= authorization.value ==> (t.Some? <==> ' ' in authorization.value)
  {
    if authorization.Some? && "Bearer" <= authorization.value then SecondField(authorization.value)
    else None
  }

  /** `SecondField` picks the word after the first space, whatever follows it. */
  lemma {:induction false} SecondFieldOf(p: string, t: string, rest: string)
    requires ' ' !in p && ' ' !in t
    requires rest == [] || rest[0] == ' '
    ensures SecondField(p + " " + t + rest) == Some(t)
  {
    var s := p + " " + t + rest;
    var tail := t + rest;
    assert s == p + " " + tail;
    FirstSpaceAt(p, tail);
    assert s[|p| + 1..] == tail;
    if rest == [] {
      assert tail == t;
    } else {
      assert tail == t + " " + rest[1..];
      FirstSpaceAt(t, rest[1..]);
      assert tail[..|t|] == t;
    }
  }

  /** The first space of `p + " " + q` is the one after `p` when `p` has none. */
  lemma {:induction false} FirstSpaceAt(p: string, q: string)
    requires ' ' !in p
    ensures FirstSpace(p + " " + q) == Some(|p|)
  {
    var s := p + " " + q;
    assert s[|p|] == ' ';
    assert s[..|p|] == p;
  }

  /** The well-formed header "Bearer <token>" yields the token back. */
  lemma BearerRoundTrip(t: string)
    requires ' ' !in t
    ensures BearerToken(Some("Bearer " + t)) == Some(t)
  {
    SecondFieldOf("Bearer", t, []);
    assert "Bearer" + " " + t + [] == "Bearer " + t;
  }

  /** Looser than the scheme of section 2.1 of RFC 6750: any header merely
      starting with "Bearer" is accepted, "BearerXYZ abc" yields "abc", and a
      double space yields the empty token. */
  lemma BearerSchemeLoose(t: string)
    requires ' ' !in t
    ensures BearerToken(Some("BearerXYZ " + t)) == Some(t)
    ensures BearerToken(Some("Bearer  " + t)) == Some("")
  {
    SecondFieldOf("BearerXYZ", t, []);
    assert "BearerXYZ" + " " + t + [] == "BearerXYZ " + t;
    SecondFieldOf("Bearer", "", " " + t);
    assert "Bearer" + " " + "" + (" " + t) == "Bearer  " + t;
  }

  /** A header not starting with "Bearer" (a lower-case "bearer" included)
      gives no token. */
  lemma NoBearerPrefixNoToken(h: string)
    requires !("Bearer" <= h)
    ensures BearerToken(Some(h)) == None
  {
  }

  /** The oracles for what the model does not compute. `verify` holds the
      tokens `jwt.verify` accepts (signature, format and expiry checked) with
      the `userId` in their payload; `users` holds the documents `findById`
      returns; `storeDown` makes `findById` throw. */
  datatype Oracles = Oracles(verify: map<string, string>, users: map<string, User>, storeDown: bool)

  /** `findById(id).select("-password")` when the store answers: the user or null. */
  function FindById(o: Oracles, id: string): (r: Option<User>)
    ensures r.Some? <==> id in o.users
    ensures r.Some? ==> r.value == o.users[id]
  {
    if id in o.users then Some(o.users[id]) else None
  }

  /** Whether a request may go on to the next handler, with the user it carries. */
  datatype ProtectOutcome = Proceed(user: Option<User>) | Reject(status: int, message: string)

  /** The parts of an Express request the middlewares read and write. */
  class Request {
    /** `req.headers.authorization` */
    const authorization: Option<string>
    /** `req.cookies`, absent when no cookie parser ran */
    const cookies: Option<map<string, string>>
    /** `req.user`, undefined or null as `None` */
    var user: Option<User>

    constructor (authorization: Option<string>, cookies: Option<map<string, string>>)
      ensures this.authorization == authorization && this.cookies == cookies
      ensures user == None
    {
      this.authorization := authorization;
      this.cookies := cookies;
      user := None;
    }
  }
}
