/** `protect` of middleware/authMiddleware.js: the `jwt` cookie first, then the
    Authorization header, and it refuses a token whose user is gone. */
module CookieAuth {
  import opened Wrappers
  import opened Guards
  import opened Identity
  import HeaderAuth

  /** The `jwt` cookie when it is set and non-empty, otherwise the bearer token. */
  function ExtractToken(cookies: map<string, string>, authorization: Option<string>): Option<string>
  {
    if "jwt" in cookies && cookies["jwt"] != "" then Some(cookies["jwt"])
    else BearerToken(authorization)
  }

  /** The decision the middleware reaches. `cookies == None` stands for a
      request without `req.cookies`, where reading `req.cookies.jwt` throws
      into the outer catch. */
  function ProtectResult(cookies: Option<map<string, string>>, authorization: Option<string>, o: Oracles): (r: ProtectOutcome)
    ensures r.Reject? ==> r.status == 401 || r.status == 500
  {
    if cookies.None? then Reject(500, "Server error")
    else
      var token := ExtractToken(cookies.value, authorization);
      if !Given(token) then Reject(401, "Not authorized, no token provided")
      else if token.value !in o.verify || o.storeDown then Reject(401, "Invalid token")
      else
        var user := FindById(o, o.verify[token.value]);
        if user.None? then Reject(401, "User not found for this token")
        else Proceed(user)
  }

  /** Whether the middleware reaches the assignment to `req.user`. */
  predicate AssignsUser(cookies: Option<map<string, string>>, authorization: Option<string>, o: Oracles)
  {
    cookies.Some? &&
    var token := ExtractToken(cookies.value, authorization);
    Given(token) && token.value in o.verify && !o.storeDown
  }

  method Protect(req: Request, o: Oracles) returns (r: ProtectOutcome)
    modifies req
    ensures r == ProtectResult(req.cookies, req.authorization, o)
    ensures AssignsUser(req.cookies, req.authorization, o) ==>
      req.user == FindById(o, o.verify[ExtractToken(req.cookies.value, req.authorization).value])
    ensures !AssignsUser(req.cookies, req.authorization, o) ==> req.user == old(req.user)
  {
    if req.cookies.None? {
      return Reject(500, "Server error");
    }
    var token: Option<string> := None;
    if "jwt" in req.cookies.value && req.cookies.value["jwt"] != "" {
      token := Some(req.cookies.value["jwt"]);
    } else if req.authorization.Some? && "Bearer" <= req.authorization.value {
      token := SecondField(req.authorization.value);
    }
    if !Given(token) {
      return Reject(401, "Not authorized, no token provided");
    }
    if token.value !in o.verify || o.storeDown {
      return Reject(401, "Invalid token");
    }
    req.user := FindById(o, o.verify[token.value]);
    if req.user.None? {
      return Reject(401, "User not found for this token");
    }
    r := Proceed(req.user);
  }

  /** A non-empty `jwt` cookie wins: the header is then never consulted. */
  lemma CookieTakesPriority(cookies: map<string, string>, h1: Option<string>, h2: Option<string>)
    requires "jwt" in cookies && cookies["jwt"] != ""
    ensures ExtractToken(cookies, h1) == Some(cookies["jwt"])
    ensures ExtractToken(cookies, h1) == ExtractToken(cookies, h2)
  {
  }

  /** Without a usable token the answer is 401 "Not authorized, no token provided". */
  lemma NoTokenRejected(cookies: map<string, string>, authorization: Option<string>, o: Oracles)
    requires !("jwt" in cookies && cookies["jwt"] != "")
    requires !Given(BearerToken(authorization))
    ensures ProtectResult(Some(cookies), authorization, o) == Reject(401, "Not authorized, no token provided")
  {
  }

  /** Fail-closed: `next` runs only for a verified token whose user exists, and
      the request then carries exactly that user. */
  lemma FailClosed(cookies: Option<map<string, string>>, authorization: Option<string>, o: Oracles)
    ensures ProtectResult(cookies, authorization, o).Proceed? <==>
      AssignsUser(cookies, authorization, o) &&
      o.verify[ExtractToken(cookies.value, authorization).value] in o.users
    ensures ProtectResult(cookies, authorization, o).Proceed? ==>
      ProtectResult(cookies, authorization, o).user ==
        Some(o.users[o.verify[ExtractToken(cookies.value, authorization).value]])
  {
  }

  /** Without cookies the two middlewares agree except on a deleted user, which
      this one refuses with 401 where the other passes a null user on. */
  lemma AgreesWithHeaderOnly(authorization: Option<string>, o: Oracles)
    ensures HeaderAuth.ProtectResult(authorization, o).Proceed? ==>
      var u := HeaderAuth.ProtectResult(authorization, o).user;
      ProtectResult(Some(map[]), authorization, o) ==
        (if u.Some? then Proceed(u) else Reject(401, "User not found for this token"))
    ensures ProtectResult(Some(map[]), authorization, o).Proceed? ==>
      HeaderAuth.ProtectResult(authorization, o) == ProtectResult(Some(map[]), authorization, o)
  {
  }
}
