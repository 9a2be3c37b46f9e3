/** routes/log.route.js: the audit-log queries, for super admins only. The
    router is never mounted (see `Server`). */
module LogRoutes {
  import opened Wrappers
  import opened Guards
  import opened Identity
  import opened Routing
  import HeaderAuth

  const Routes: seq<Route> := [
    Route(GET, [Lit("logs")], [Protect, Check(IsSuperAdmin)], "getLogs"),
    Route(GET, [Lit("logs"), Lit("stats")], [Protect, Check(IsSuperAdmin)], "getLogStats")
  ]

  /** Both queries reach their handler exactly for role `super_admin`; an
      `admin` or an office holder gets 403; only reads are registered. */
  lemma Decisions(verb: Verb, path: Path, authorization: Option<string>, o: Oracles)
    ensures
      var p := HeaderAuth.ProtectResult(authorization, o);
      && (Decide(Routes, GET, ["logs"], authorization, o).Reaches? <==> p.Proceed? && p.user.Some? && p.user.value.role == "super_admin")
      && (Decide(Routes, GET, ["logs", "stats"], authorization, o).Reaches? <==> p.Proceed? && p.user.Some? && p.user.value.role == "super_admin")
    ensures verb != GET ==> Decide(Routes, verb, path, authorization, o) == NoRoute
  {
    var p := HeaderAuth.ProtectResult(authorization, o);
    assert PatternMatches(Routes[0].pattern, ["logs"]);
    SelectAt(Routes, 0, GET, ["logs"]);
    assert |Routes[0].pattern| == 1;
    assert PatternMatches(Routes[1].pattern, ["logs", "stats"]);
    SelectAt(Routes, 1, GET, ["logs", "stats"]);
    DecideGuardedBy(Routes, GET, ["logs"], IsSuperAdmin, authorization, o);
    DecideGuardedBy(Routes, GET, ["logs", "stats"], IsSuperAdmin, authorization, o);
    if p.Proceed? && p.user.Some? {
      OfficeGuardsExact(p.user.value);
    }
    SelectNone(Routes, verb, path);
  }
}
