/** `generateToken` of utils/generateToken.js: signs `{ userId }` for thirty
    days and stores the token in the `jwt` cookie of the response. */
module TokenIssue {
  import opened Wrappers
  import opened Config
  import opened Guards
  import opened Identity
  import CookieAuth

  /** The signed payload: exactly `{ userId }`. */
  datatype Claims = Claims(userId: string)

  /** `expiresIn: "30d"`, in seconds. */
  const TokenLifetimeSeconds: int := 30 * 24 * 60 * 60

  datatype CookieOptions = CookieOptions(maxAge: int, httpOnly: bool, sameSite: string, secure: bool)

  datatype Cookie = Cookie(value: string, options: CookieOptions)

  datatype TokenError = MissingSecret

  /** The cookie policy: its lifetime in milliseconds equals the token's,
      it is always HTTP-only and strictly same-site, and it is `secure`
      unless NODE_ENV is exactly "development" (an unset NODE_ENV included). */
  function CookieOptionsFor(nodeEnv: Option<string>): (c: CookieOptions)
    ensures c.maxAge == TokenLifetimeSeconds * 1000 == 2592000000
    ensures c.httpOnly && c.sameSite == "strict"
    ensures c.secure <==> nodeEnv != Some("development")
  {
    CookieOptions(30 * 24 * 60 * 60 * 1000, true, "strict", nodeEnv != Some("development"))
  }

  /** The cookies an Express response will set. */
  class Response {
    var cookies: map<string, Cookie>

    constructor ()
      ensures cookies == map[]
    {
      cookies := map[];
    }
  }

  /** `sign(claims, lifetime, secret)` is the `jwt.sign` oracle; it throws
      when the secret is unset or empty, and then no cookie is set. */
  method GenerateToken(userId: string, res: Response, env: Env, sign: (Claims, int, string) -> string)
    returns (r: Result<string, TokenError>)
    modifies res
    ensures r.Success? <==> Given(env.jwtSecret)
    ensures r.Success? ==> r.value == sign(Claims(userId), TokenLifetimeSeconds, env.jwtSecret.value)
    ensures r.Success? ==> res.cookies == old(res.cookies)["jwt" := Cookie(r.value, CookieOptionsFor(env.nodeEnv))]
    ensures r.Failure? ==> res.cookies == old(res.cookies)
  {
    if !Given(env.jwtSecret) {
      return Failure(MissingSecret);
    }
    var token := sign(Claims(userId), TokenLifetimeSeconds, env.jwtSecret.value);
    res.cookies := res.cookies["jwt" := Cookie(token, CookieOptionsFor(env.nodeEnv))];
    r := Success(token);
  }

  /** What the verifier oracle is assumed to do with `sign`'s output: a
      token signed with the configured secret is non-empty, is accepted, and
      decodes to the user id it was signed for. */
  predicate VerifierReadsBack(sign: (Claims, int, string) -> string, secret: string, o: Oracles, userId: string)
  {
    var token := sign(Claims(userId), TokenLifetimeSeconds, secret);
    token != "" && token in o.verify && o.verify[token] == userId
  }

  /** The cookie `GenerateToken` sets authenticates its user with the
      cookie-reading `protect`, whatever header comes with it, as long as the
      user still exists. */
  lemma IssuedCookieAuthenticates(userId: string, env: Env, sign: (Claims, int, string) -> string,
                                  authorization: Option<string>, o: Oracles)
    requires Given(env.jwtSecret)
    requires VerifierReadsBack(sign, env.jwtSecret.value, o, userId)
    requires userId in o.users && !o.storeDown
    ensures
      var token := sign(Claims(userId), TokenLifetimeSeconds, env.jwtSecret.value);
      CookieAuth.ProtectResult(Some(map["jwt" := token]), authorization, o) == Proceed(Some(o.users[userId]))
  {
  }
}
