/** `protect` of middleware/auth.middleware.js, the one every mounted router
    uses: header only, and it lets the request through even when the user
    lookup finds nobody. */
module HeaderAuth {
  import opened Wrappers
  import opened Guards
  import opened Identity

  /** The decision `protect` reaches for a request. */
  function ProtectResult(authorization: Option<string>, o: Oracles): (r: ProtectOutcome)
    ensures r.Reject? ==> r.status == 401
  {
    var token := BearerToken(authorization);
    if !Given(token) then Reject(401, "Not authorized, no token")
    else if token.value !in o.verify || o.storeDown then Reject(401, "Invalid token")
    else Proceed(FindById(o, o.verify[token.value]))
  }

  /** The middleware itself: on success it assigns `req.user` and calls `next()`;
      on any failure it answers 401 and leaves `req.user` as it was. */
  method Protect(req: Request, o: Oracles) returns (r: ProtectOutcome)
    modifies req
    ensures r == ProtectResult(req.authorization, o)
    ensures r.Proceed? ==> req.user == r.user
    ensures r.Reject? ==> req.user == old(req.user)
  {
    var token: Option<string> := None;
    if req.authorization.Some? && "Bearer" <= req.authorization.value {
      token := SecondField(req.authorization.value);
    }
    if !Given(token) {
      return Reject(401, "Not authorized, no token");
    }
    if token.value !in o.verify {
      // jwt.verify throws into the catch
      return Reject(401, "Invalid token");
    }
    var userId := o.verify[token.value];
    if o.storeDown {
      // findById throws into the same catch
      return Reject(401, "Invalid token");
    }
    req.user := FindById(o, userId);
    r := Proceed(req.user);
  }

  /** Without a usable bearer token the answer is 401 and `next` is not called. */
  lemma NoTokenRejected(authorization: Option<string>, o: Oracles)
    requires !Given(BearerToken(authorization))
    ensures ProtectResult(authorization, o) == Reject(401, "Not authorized, no token")
  {
  }

  /** A token that fails verification gives 401 "Invalid token". */
  lemma InvalidTokenRejected(authorization: Option<string>, o: Oracles)
    requires Given(BearerToken(authorization))
    requires BearerToken(authorization).value !in o.verify
    ensures ProtectResult(authorization, o) == Reject(401, "Invalid token")
  {
  }

  /** `next` runs exactly for a verified token read while the store answers,
      and the request then carries whatever the lookup returned. */
  lemma ProceedsExactlyWhenVerified(authorization: Option<string>, o: Oracles)
    ensures ProtectResult(authorization, o).Proceed? <==>
      var t := BearerToken(authorization);
      Given(t) && t.value in o.verify && !o.storeDown
    ensures ProtectResult(authorization, o).Proceed? ==>
      ProtectResult(authorization, o).user == FindById(o, o.verify[BearerToken(authorization).value])
  {
  }

  /** Identity is not fail-closed: a verified token whose user no longer
      exists still reaches `next`, with a null `req.user`. */
  lemma DeletedUserProceeds(t: string, o: Oracles)
    requires ' ' !in t && t != ""
    requires t in o.verify && o.verify[t] !in o.users && !o.storeDown
    ensures ProtectResult(Some("Bearer " + t), o) == Proceed(None)
  {
    BearerRoundTrip(t);
  }

  /** A well-formed `Bearer <token>` header with a token the verifier
      accepts proceeds with the result of the user lookup. */
  lemma VerifiedTokenProceeds(t: string, o: Oracles)
    requires ' ' !in t && t != ""
    requires t in o.verify && !o.storeDown
    ensures ProtectResult(Some("Bearer " + t), o) == Proceed(FindById(o, o.verify[t]))
  {
    BearerRoundTrip(t);
  }
}
