/** routes/user.routes.js: member login, logout, and member management
    behind `isAdmin`. */
module UserRoutes {
  import opened Wrappers
  import opened Guards
  import opened Identity
  import opened Routing
  import HeaderAuth

  const Routes: seq<Route> := [
    Route(POST, [Lit("auth")], [], "authUser"),
    Route(POST, [Lit("logout")], [Protect], "logoutUser"),
    Route(GET, [], [Protect, Check(IsAdmin)], "getAllUsers"),
    Route(POST, [], [Protect, Check(IsAdmin)], "registerMember"),
    Route(GET, [Param], [Protect], "getUserProfile"),
    Route(PUT, [Param], [Protect, Check(IsAdmin)], "updateUserProfile"),
    Route(DELETE, [Param], [Protect, Check(IsAdmin)], "deleteUser")
  ]

  /** Login and logout are the first two registrations. */
  lemma LookupSession()
    ensures Select(Routes, POST, ["auth"]) == Some(Routes[0])
    ensures Select(Routes, POST, ["logout"]) == Some(Routes[1])
  {
    assert PatternMatches(Routes[0].pattern, ["auth"]);
    SelectAt(Routes, 0, POST, ["auth"]);
    assert !Applies(Routes[0], POST, ["logout"]) by {
      assert "logout"[0] != "auth"[0];
      assert !SegmentMatches(Routes[0].pattern[0], "logout");
    }
    assert PatternMatches(Routes[1].pattern, ["logout"]);
    SelectAt(Routes, 1, POST, ["logout"]);
  }

  /** `route("/")` get lists members. */
  lemma LookupList()
    ensures Select(Routes, GET, []) == Some(Routes[2])
  {
    assert Routes[0].verb == POST && Routes[1].verb == POST && Routes[2] == Route(GET, [], [Protect, Check(IsAdmin)], "getAllUsers");
    SelectAt(Routes, 2, GET, []);
  }

  /** `route("/")` post registers a member; login and logout have one segment. */
  lemma LookupRegister()
    ensures Select(Routes, POST, []) == Some(Routes[3])
  {
    assert |Routes[0].pattern| == 1 && |Routes[1].pattern| == 1 && Routes[2].verb == GET;
    assert Routes[3] == Route(POST, [], [Protect, Check(IsAdmin)], "registerMember");
    SelectAt(Routes, 3, POST, []);
  }

  lemma LookupRoot()
    ensures Select(Routes, GET, []) == Some(Routes[2])
    ensures Select(Routes, POST, []) == Some(Routes[3])
  {
    LookupList();
    LookupRegister();
  }

  /** `route("/:id")` get reads a profile. */
  lemma LookupProfile(id: string)
    requires id != ""
    ensures Select(Routes, GET, [id]) == Some(Routes[4])
  {
    assert Routes[0].verb == POST && Routes[1].verb == POST && Routes[3].verb == POST;
    assert Routes[2].pattern == [];
    assert PatternMatches(Routes[4].pattern, [id]);
    SelectAt(Routes, 4, GET, [id]);
  }

  /** `route("/:id")` put and delete; no earlier registration is a put or a delete. */
  lemma LookupChange(id: string)
    requires id != ""
    ensures Select(Routes, PUT, [id]) == Some(Routes[5])
    ensures Select(Routes, DELETE, [id]) == Some(Routes[6])
  {
    assert Routes[0].verb == POST && Routes[1].verb == POST && Routes[2].verb == GET;
    assert Routes[3].verb == POST && Routes[4].verb == GET && Routes[5].verb == PUT;
    assert PatternMatches(Routes[5].pattern, [id]);
    assert PatternMatches(Routes[6].pattern, [id]);
    SelectAt(Routes, 5, PUT, [id]);
    SelectAt(Routes, 6, DELETE, [id]);
  }

  /** Login is public: it reaches `authUser` for everyone, with no user. */
  lemma LoginPublic(authorization: Option<string>, o: Oracles)
    ensures Decide(Routes, POST, ["auth"], authorization, o) == Reaches(Routes[0], None)
  {
    LookupSession();
    DecidePublic(Routes, POST, ["auth"], authorization, o);
  }

  /** Logout and reading a profile need only a token `protect` accepts. */
  lemma ProtectOnlyDecisions(id: string, authorization: Option<string>, o: Oracles)
    requires id != ""
    ensures Decide(Routes, POST, ["logout"], authorization, o).Reaches? <==> HeaderAuth.ProtectResult(authorization, o).Proceed?
    ensures Decide(Routes, GET, [id], authorization, o).Reaches? <==> HeaderAuth.ProtectResult(authorization, o).Proceed?
  {
    LookupSession();
    LookupProfile(id);
    DecideProtected(Routes, POST, ["logout"], authorization, o);
    DecideProtected(Routes, GET, [id], authorization, o);
  }

  /** The user `protect` attached has role exactly `admin`. */
  predicate AdminAttached(p: ProtectOutcome)
  {
    p.Proceed? && p.user.Some? && p.user.value.role == "admin"
  }

  /** Listing, registering, updating and deleting members need role exactly
      `admin`. */
  lemma ManagementDecisions(id: string, authorization: Option<string>, o: Oracles)
    requires id != ""
    ensures Decide(Routes, GET, [], authorization, o).Reaches? <==> AdminAttached(HeaderAuth.ProtectResult(authorization, o))
    ensures Decide(Routes, POST, [], authorization, o).Reaches? <==> AdminAttached(HeaderAuth.ProtectResult(authorization, o))
    ensures Decide(Routes, PUT, [id], authorization, o).Reaches? <==> AdminAttached(HeaderAuth.ProtectResult(authorization, o))
    ensures Decide(Routes, DELETE, [id], authorization, o).Reaches? <==> AdminAttached(HeaderAuth.ProtectResult(authorization, o))
  {
    var p := HeaderAuth.ProtectResult(authorization, o);
    LookupRoot();
    LookupChange(id);
    DecideGuardedBy(Routes, GET, [], IsAdmin, authorization, o);
    DecideGuardedBy(Routes, POST, [], IsAdmin, authorization, o);
    DecideGuardedBy(Routes, PUT, [id], IsAdmin, authorization, o);
    DecideGuardedBy(Routes, DELETE, [id], IsAdmin, authorization, o);
    if p.Proceed? && p.user.Some? {
      AdminGuardsExact(p.user.value);
    }
  }

  /** A super admin is refused 403 on every `isAdmin` registration. */
  lemma SuperAdminLockedOut(id: string, authorization: Option<string>, o: Oracles)
    requires id != ""
    requires HeaderAuth.ProtectResult(authorization, o).Proceed?
    requires HeaderAuth.ProtectResult(authorization, o).user.Some?
    requires HeaderAuth.ProtectResult(authorization, o).user.value.role == "super_admin"
    ensures Decide(Routes, GET, [], authorization, o) == Denied(403, "Not authorized as an admin")
    ensures Decide(Routes, POST, [], authorization, o) == Denied(403, "Not authorized as an admin")
    ensures Decide(Routes, PUT, [id], authorization, o) == Denied(403, "Not authorized as an admin")
    ensures Decide(Routes, DELETE, [id], authorization, o) == Denied(403, "Not authorized as an admin")
  {
    var p := HeaderAuth.ProtectResult(authorization, o);
    AdminGuardsExact(p.user.value);
    LookupRoot();
    LookupChange(id);
    DecideGuardedBy(Routes, GET, [], IsAdmin, authorization, o);
    DecideGuardedBy(Routes, POST, [], IsAdmin, authorization, o);
    DecideGuardedBy(Routes, PUT, [id], IsAdmin, authorization, o);
    DecideGuardedBy(Routes, DELETE, [id], IsAdmin, authorization, o);
  }

  lemma AllGuardedHere()
    ensures forall rt :: rt in Routes ==> Guarded(rt.chain)
  {
    forall rt | rt in Routes
      ensures Guarded(rt.chain)
    {
      assert rt.chain == [] || rt.chain[1..] == [] || rt.chain[1..] == [Check(IsAdmin)];
    }
  }

  /** Login is the only member registration without `protect`. */
  lemma OnlyLoginPublic()
    ensures forall rt :: rt in Routes && rt.chain == [] ==> rt.handler == "authUser"
  {
    forall rt | rt in Routes
      ensures rt.chain == [] ==> rt.handler == "authUser"
    {
      assert rt == Routes[0] || rt == Routes[1] || rt == Routes[2] || rt == Routes[3] ||
             rt == Routes[4] || rt == Routes[5] || rt == Routes[6];
    }
  }
}
