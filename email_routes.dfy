/** routes/email.routes.js: the public contact form. */
module EmailRoutes {
  import opened Wrappers
  import opened Identity
  import opened Routing

  const Routes: seq<Route> := [Route(POST, [Lit("contact")], [], "sendEmail")]

  /** The form is public: it reaches `sendEmail` for everyone, with no user,
      whatever Authorization header is sent. */
  lemma ContactPublic(authorization: Option<string>, o: Oracles)
    ensures Decide(Routes, POST, ["contact"], authorization, o) == Reaches(Routes[0], None)
  {
    assert PatternMatches(Routes[0].pattern, ["contact"]);
    SelectAt(Routes, 0, POST, ["contact"]);
  }
}
