/** The route table shared, registration for registration, by the five
    benefit route files (death fund, medical, refund, retirement,
    scholarship) and opening the loan route file. */
module BenefitRoutes {
  import opened Wrappers
  import opened Guards
  import opened Identity
  import opened Routing
  import HeaderAuth

  /** The handler labels one file registers, in the shape's order. */
  datatype Handlers = Handlers(create: string, list: string, view: string, update: string, remove: string, byUser: string)

  const Treasury: Step := Check(IsTreasurerOrAssistantTreasurer)

  /** `route("/")` post and get, `route("/:id")` get, put and delete, then
      get `/<userSegment>/:userId`. */
  function Table(userSegment: string, h: Handlers): seq<Route>
  {
    [ Route(POST, [], [Protect, Treasury], h.create),
      Route(GET, [], [Protect], h.list),
      Route(GET, [Param], [Protect], h.view),
      Route(PUT, [Param], [Protect, Treasury], h.update),
      Route(DELETE, [Param], [Protect, Check(IsSuperAdmin)], h.remove),
      Route(GET, [Lit(userSegment), Param], [Protect], h.byUser) ]
  }

  /** `route("/")`: post creates, get lists. */
  lemma LookupRoot(userSegment: string, h: Handlers)
    ensures Select(Table(userSegment, h), POST, []) == Some(Table(userSegment, h)[0])
    ensures Select(Table(userSegment, h), GET, []) == Some(Table(userSegment, h)[1])
  {
    var t := Table(userSegment, h);
    assert t[0].verb == POST && t[1].verb == GET && t[1].pattern == [];
    SelectAt(t, 0, POST, []);
    SelectAt(t, 1, GET, []);
  }

  /** `route("/:id")` get reads one record. */
  lemma LookupView(userSegment: string, h: Handlers, id: string)
    requires id != ""
    ensures Select(Table(userSegment, h), GET, [id]) == Some(Table(userSegment, h)[2])
  {
    var t := Table(userSegment, h);
    assert t[0].verb == POST && t[1].pattern == [];
    assert PatternMatches(t[2].pattern, [id]);
    SelectAt(t, 2, GET, [id]);
  }

  /** `route("/:id")` put updates one record. */
  lemma LookupUpdate(userSegment: string, h: Handlers, id: string)
    requires id != ""
    ensures Select(Table(userSegment, h), PUT, [id]) == Some(Table(userSegment, h)[3])
  {
    var t := Table(userSegment, h);
    assert t[0].verb == POST && t[1].verb == GET && t[2].verb == GET;
    assert PatternMatches(t[3].pattern, [id]);
    SelectAt(t, 3, PUT, [id]);
  }

  /** `route("/:id")` delete removes one record. */
  lemma LookupRemove(userSegment: string, h: Handlers, id: string)
    requires id != ""
    ensures Select(Table(userSegment, h), DELETE, [id]) == Some(Table(userSegment, h)[4])
  {
    var t := Table(userSegment, h);
    assert t[0].verb == POST && t[1].verb == GET && t[2].verb == GET && t[3].verb == PUT;
    assert PatternMatches(t[4].pattern, [id]);
    SelectAt(t, 4, DELETE, [id]);
  }

  /** The three registrations of `route("/:id")` are not shadowed. */
  lemma LookupId(userSegment: string, h: Handlers, id: string)
    requires id != ""
    ensures Select(Table(userSegment, h), GET, [id]) == Some(Table(userSegment, h)[2])
    ensures Select(Table(userSegment, h), PUT, [id]) == Some(Table(userSegment, h)[3])
    ensures Select(Table(userSegment, h), DELETE, [id]) == Some(Table(userSegment, h)[4])
  {
    LookupView(userSegment, h, id);
    LookupUpdate(userSegment, h, id);
    LookupRemove(userSegment, h, id);
  }

  /** Get `/<userSegment>/:userId`, registered last, is not shadowed by
      `/:id` (which has one segment). */
  lemma LookupByUser(userSegment: string, h: Handlers, userId: string)
    requires userId != ""
    ensures Select(Table(userSegment, h), GET, [userSegment, userId]) == Some(Table(userSegment, h)[5])
  {
    var t := Table(userSegment, h);
    assert t[0].verb == POST && t[1].verb == GET && t[2].verb == GET;
    assert t[3].verb == PUT && t[4].verb == DELETE && t[5].verb == GET;
    assert t[1].pattern == [] && t[2].pattern == [Param];
    assert PatternMatches(t[5].pattern, [userSegment, userId]);
    SelectAt(t, 5, GET, [userSegment, userId]);
  }

  /** Which handler, behind which chain, each request reaches in a file
      registered in this shape with handler labels `h`. */
  lemma Registrations(userSegment: string, h: Handlers, id: string, userId: string)
    requires id != "" && userId != ""
    ensures Select(Table(userSegment, h), POST, []) == Some(Route(POST, [], [Protect, Check(IsTreasurerOrAssistantTreasurer)], h.create))
    ensures Select(Table(userSegment, h), GET, []) == Some(Route(GET, [], [Protect], h.list))
    ensures Select(Table(userSegment, h), GET, [id]) == Some(Route(GET, [Param], [Protect], h.view))
    ensures Select(Table(userSegment, h), PUT, [id]) == Some(Route(PUT, [Param], [Protect, Check(IsTreasurerOrAssistantTreasurer)], h.update))
    ensures Select(Table(userSegment, h), DELETE, [id]) == Some(Route(DELETE, [Param], [Protect, Check(IsSuperAdmin)], h.remove))
    ensures Select(Table(userSegment, h), GET, [userSegment, userId]) == Some(Route(GET, [Lit(userSegment), Param], [Protect], h.byUser))
  {
    LookupRoot(userSegment, h);
    LookupId(userSegment, h, id);
    LookupByUser(userSegment, h, userId);
  }

  /** Every registration of the shape is `protect` followed by guards. */
  lemma AllGuarded(userSegment: string, h: Handlers)
    ensures forall rt :: rt in Table(userSegment, h) ==> Guarded(rt.chain)
  {
    forall rt | rt in Table(userSegment, h)
      ensures Guarded(rt.chain)
    {
      assert rt.chain[1..] == [] || rt.chain[1..] == [Treasury] || rt.chain[1..] == [Check(IsSuperAdmin)];
    }
  }

  /** Reads (the list, one record, one member's records) need only a token
      `protect` accepts, even one whose member was since deleted. */
  lemma ReadDecisions(userSegment: string, h: Handlers, id: string, userId: string, authorization: Option<string>, o: Oracles)
    requires id != "" && userId != ""
    ensures
      var p := HeaderAuth.ProtectResult(authorization, o);
      && (Decide(Table(userSegment, h), GET, [], authorization, o).Reaches? <==> p.Proceed?)
      && (Decide(Table(userSegment, h), GET, [id], authorization, o).Reaches? <==> p.Proceed?)
      && (Decide(Table(userSegment, h), GET, [userSegment, userId], authorization, o).Reaches? <==> p.Proceed?)
  {
    var t := Table(userSegment, h);
    LookupRoot(userSegment, h);
    LookupId(userSegment, h, id);
    LookupByUser(userSegment, h, userId);
    DecideProtected(t, GET, [], authorization, o);
    DecideProtected(t, GET, [id], authorization, o);
    DecideProtected(t, GET, [userSegment, userId], authorization, o);
  }

  /** The roles the treasury guard admits, as the strings it compares. */
  predicate TreasuryRole(p: ProtectOutcome)
  {
    p.Proceed? && p.user.Some? &&
    (p.user.value.role == "treasurer" || p.user.value.role == "assistant_treasurer" || p.user.value.role == "super_admin")
  }

  /** Create and update need a treasurer, an assistant treasurer or a super
      admin. */
  lemma WriteDecisions(userSegment: string, h: Handlers, id: string, authorization: Option<string>, o: Oracles)
    requires id != ""
    ensures Decide(Table(userSegment, h), POST, [], authorization, o).Reaches? <==> TreasuryRole(HeaderAuth.ProtectResult(authorization, o))
    ensures Decide(Table(userSegment, h), PUT, [id], authorization, o).Reaches? <==> TreasuryRole(HeaderAuth.ProtectResult(authorization, o))
  {
    var t := Table(userSegment, h);
    var p := HeaderAuth.ProtectResult(authorization, o);
    LookupRoot(userSegment, h);
    LookupId(userSegment, h, id);
    DecideGuardedBy(t, POST, [], IsTreasurerOrAssistantTreasurer, authorization, o);
    DecideGuardedBy(t, PUT, [id], IsTreasurerOrAssistantTreasurer, authorization, o);
    if p.Proceed? && p.user.Some? {
      OfficeGuardsExact(p.user.value);
    }
  }

  /** Delete needs a super admin. */
  lemma DeleteDecision(userSegment: string, h: Handlers, id: string, authorization: Option<string>, o: Oracles)
    requires id != ""
    ensures
      var p := HeaderAuth.ProtectResult(authorization, o);
      Decide(Table(userSegment, h), DELETE, [id], authorization, o).Reaches? <==>
        p.Proceed? && p.user.Some? && p.user.value.role == "super_admin"
  {
    var t := Table(userSegment, h);
    var p := HeaderAuth.ProtectResult(authorization, o);
    LookupRoot(userSegment, h);
    LookupId(userSegment, h, id);
    DecideGuardedBy(t, DELETE, [id], IsSuperAdmin, authorization, o);
    if p.Proceed? && p.user.Some? {
      OfficeGuardsExact(p.user.value);
    }
  }

  /** Without a usable bearer token every registration answers 401 before
      any guard runs. */
  lemma NoTokenEverywhere(userSegment: string, h: Handlers, verb: Verb, path: Path, authorization: Option<string>, o: Oracles)
    requires Select(Table(userSegment, h), verb, path).Some?
    requires !Given(BearerToken(authorization))
    ensures Decide(Table(userSegment, h), verb, path, authorization, o) == Denied(401, "Not authorized, no token")
  {
    AllGuarded(userSegment, h);
    HeaderAuth.NoTokenRejected(authorization, o);
    DecideMeaning(Table(userSegment, h), verb, path, authorization, o);
  }

  /** Whoever may delete may also create and update. */
  lemma DeleteImpliesWrite(userSegment: string, h: Handlers, id: string, authorization: Option<string>, o: Oracles)
    requires id != ""
    ensures Decide(Table(userSegment, h), DELETE, [id], authorization, o).Reaches? ==>
              Decide(Table(userSegment, h), PUT, [id], authorization, o).Reaches? &&
              Decide(Table(userSegment, h), POST, [], authorization, o).Reaches?
  {
    WriteDecisions(userSegment, h, id, authorization, o);
    DeleteDecision(userSegment, h, id, authorization, o);
  }

  /** The inclusion is strict: a treasurer may update but is refused 403 on
      delete. */
  lemma TreasurerCannotDelete(userSegment: string, h: Handlers, id: string)
    requires id != ""
    ensures
      var treasurer := Oracles(map["t" := "u"], map["u" := User("u", "treasurer")], false);
      && Decide(Table(userSegment, h), PUT, [id], Some("Bearer t"), treasurer).Reaches?
      && Decide(Table(userSegment, h), DELETE, [id], Some("Bearer t"), treasurer) == Denied(403, DenyMessage(IsSuperAdmin))
  {
    var t := Table(userSegment, h);
    var treasurer := Oracles(map["t" := "u"], map["u" := User("u", "treasurer")], false);
    var auth := Some("Bearer t");
    assert HeaderAuth.ProtectResult(auth, treasurer) == Proceed(Some(User("u", "treasurer"))) by {
      assert "Bearer " + "t" == "Bearer t";
      HeaderAuth.VerifiedTokenProceeds("t", treasurer);
    }
    var u := Some(User("u", "treasurer"));
    assert RunGuard(IsTreasurerOrAssistantTreasurer, u).Next? && RunGuard(IsSuperAdmin, u).Deny? by {
      OfficeGuardsExact(u.value);
    }
    LookupUpdate(userSegment, h, id);
    DecideGuardedBy(t, PUT, [id], IsTreasurerOrAssistantTreasurer, auth, treasurer);
    LookupRemove(userSegment, h, id);
    DecideGuardedBy(t, DELETE, [id], IsSuperAdmin, auth, treasurer);
  }

  /** `isAdmin` appears in none of these chains. */
  lemma IsAdminUnused(userSegment: string, h: Handlers)
    ensures forall rt :: rt in Table(userSegment, h) ==> Check(IsAdmin) !in rt.chain
  {
    forall rt | rt in Table(userSegment, h)
      ensures Check(IsAdmin) !in rt.chain
    {
      assert rt.chain == [Protect] || rt.chain == [Protect, Treasury] || rt.chain == [Protect, Check(IsSuperAdmin)];
    }
  }

  /** So an `admin` can create, update or delete nothing here. */
  lemma AdminCannotMutate(userSegment: string, h: Handlers, id: string, authorization: Option<string>, o: Oracles)
    requires id != ""
    requires HeaderAuth.ProtectResult(authorization, o).Proceed?
    requires HeaderAuth.ProtectResult(authorization, o).user.Some?
    requires HeaderAuth.ProtectResult(authorization, o).user.value.role == "admin"
    ensures Decide(Table(userSegment, h), POST, [], authorization, o).Denied?
    ensures Decide(Table(userSegment, h), PUT, [id], authorization, o).Denied?
    ensures Decide(Table(userSegment, h), DELETE, [id], authorization, o).Denied?
  {
    WriteDecisions(userSegment, h, id, authorization, o);
    DeleteDecision(userSegment, h, id, authorization, o);
    LookupRoot(userSegment, h);
    LookupId(userSegment, h, id);
  }

  /** The chain of each registration follows from its verb alone: reads
      need `protect`, create and update the treasury guard, delete the super
      admin guard. */
  lemma ChainsByVerb(userSegment: string, h: Handlers)
    ensures forall rt :: rt in Table(userSegment, h) ==>
      && (rt.verb == GET ==> rt.chain == [Protect])
      && (rt.verb == POST || rt.verb == PUT ==> rt.chain == [Protect, Treasury])
      && (rt.verb == DELETE ==> rt.chain == [Protect, Check(IsSuperAdmin)])
  {
    var t := Table(userSegment, h);
    forall rt | rt in t
      ensures && (rt.verb == GET ==> rt.chain == [Protect])
              && (rt.verb == POST || rt.verb == PUT ==> rt.chain == [Protect, Treasury])
              && (rt.verb == DELETE ==> rt.chain == [Protect, Check(IsSuperAdmin)])
    {
      assert rt == t[0] || rt == t[1] || rt == t[2] || rt == t[3] || rt == t[4] || rt == t[5];
    }
  }

  /** Every registration of the shape runs `protect`. */
  lemma NonePublic(userSegment: string, h: Handlers)
    ensures forall rt :: rt in Table(userSegment, h) ==> rt.chain != [] && rt.chain[0] == Protect
  {
    AllGuarded(userSegment, h);
    ChainsByVerb(userSegment, h);
  }
}
