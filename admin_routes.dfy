/** routes/admin.routes.js: admin login, and registering an admin behind
    `isAdmin`. */
module AdminRoutes {
  import opened Wrappers
  import opened Guards
  import opened Identity
  import opened Routing
  import HeaderAuth

  const Routes: seq<Route> := [
    Route(POST, [Lit("auth")], [], "authAdmin"),
    Route(POST, [], [Protect, Check(IsAdmin)], "registerAdmin")
  ]

  /** Login is public; registering an admin reaches the handler exactly for
      role `admin` (a super admin gets 403); only posts are registered, so
      any other verb matches nothing. */
  lemma Decisions(verb: Verb, path: Path, authorization: Option<string>, o: Oracles)
    ensures Decide(Routes, POST, ["auth"], authorization, o) == Reaches(Routes[0], None)
    ensures
      var p := HeaderAuth.ProtectResult(authorization, o);
      Decide(Routes, POST, [], authorization, o).Reaches? <==> p.Proceed? && p.user.Some? && p.user.value.role == "admin"
    ensures verb != POST ==> Decide(Routes, verb, path, authorization, o) == NoRoute
  {
    var p := HeaderAuth.ProtectResult(authorization, o);
    assert PatternMatches(Routes[0].pattern, ["auth"]);
    SelectAt(Routes, 0, POST, ["auth"]);
    DecidePublic(Routes, POST, ["auth"], authorization, o);
    assert |Routes[0].pattern| == 1;
    SelectAt(Routes, 1, POST, []);
    DecideGuardedBy(Routes, POST, [], IsAdmin, authorization, o);
    if p.Proceed? && p.user.Some? {
      AdminGuardsExact(p.user.value);
    }
    SelectNone(Routes, verb, path);
  }

  /** Login is the only admin registration without `protect`. */
  lemma OnlyLoginPublic()
    ensures forall rt :: rt in Routes && rt.chain == [] ==> rt.handler == "authAdmin"
  {
    forall rt | rt in Routes
      ensures rt.chain == [] ==> rt.handler == "authAdmin"
    {
      assert rt == Routes[0] || rt == Routes[1];
    }
  }
}
