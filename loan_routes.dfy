/** routes/loan.routes.js: the benefit shape with `/user/:userId`, followed
    by a status update and two utility reads. */
module LoanRoutes {
  import opened Wrappers
  import opened Guards
  import opened Identity
  import opened Routing
  import opened BenefitRoutes
  import HeaderAuth

  const Crud: Handlers := Handlers("createLoanApplication", "viewAllLoanApplications", "viewSingleLoanApplication",
                                   "updateLoanApplication", "deleteLoanApplication", "getLoansByUserId")

  const Extra: seq<Route> := [
    Route(PUT, [Param, Lit("status")], [Protect, Treasury], "updateLoanStatus"),
    Route(GET, [Lit("util"), Lit("generate-loan-number")], [Protect, Treasury], "generateLoanNumber"),
    Route(GET, [Lit("util"), Lit("loans-by-status")], [Protect], "getAllLoansByStatus")
  ]

  const Routes: seq<Route> := Table("user", Crud) + Extra

  /** The first six registrations decide exactly as the benefit shape does:
      the three later ones never shadow them. */
  lemma AsBenefitTable(verb: Verb, path: Path, authorization: Option<string>, o: Oracles)
    requires Select(Table("user", Crud), verb, path).Some?
    ensures Decide(Routes, verb, path, authorization, o) == Decide(Table("user", Crud), verb, path, authorization, o)
  {
    SelectAppend(Table("user", Crud), Extra, verb, path);
  }

  /** Reading one application needs only `protect`: whoever it lets through
      reaches the handler, with the user it attached, and whoever it rejects
      gets its 401. */
  lemma ViewDecision(id: string, authorization: Option<string>, o: Oracles)
    requires id != ""
    ensures
      var p := HeaderAuth.ProtectResult(authorization, o);
      p.Proceed? ==> Decide(Routes, GET, [id], authorization, o)
                     == Reaches(Route(GET, [Param], [Protect], "viewSingleLoanApplication"), p.user)
    ensures
      var p := HeaderAuth.ProtectResult(authorization, o);
      p.Reject? ==> Decide(Routes, GET, [id], authorization, o) == Denied(401, p.message)
  {
    LookupView("user", Crud, id);
    AsBenefitTable(GET, [id], authorization, o);
    DecideProtected(Table("user", Crud), GET, [id], authorization, o);
  }

  /** No registration of the benefit shape is a put on two segments. */
  lemma StatusPathFallsThrough(loanId: string)
    ensures Select(Table("user", Crud), PUT, [loanId, "status"]).None?
  {
    var t := Table("user", Crud);
    assert t[0].verb == POST && t[1].verb == GET && t[2].verb == GET;
    assert t[4].verb == DELETE && t[5].verb == GET && |t[3].pattern| == 1;
    SelectNone(t, PUT, [loanId, "status"]);
  }

  /** No registration of the benefit shape matches `/util/...`. */
  lemma UtilPathsFallThrough(tail: string)
    ensures Select(Table("user", Crud), GET, ["util", tail]).None?
  {
    var t := Table("user", Crud);
    assert t[0].verb == POST && t[3].verb == PUT && t[4].verb == DELETE;
    assert |t[1].pattern| == 0 && |t[2].pattern| == 1;
    assert !Applies(t[5], GET, ["util", tail]) by {
      assert t[5].pattern[0] == Lit("user");
      assert "util"[1] != "user"[1];
      assert !SegmentMatches(t[5].pattern[0], "util");
    }
    SelectNone(t, GET, ["util", tail]);
  }

  /** Updating a loan's status needs the treasury roles. */
  lemma StatusDecision(loanId: string, authorization: Option<string>, o: Oracles)
    requires loanId != ""
    ensures Decide(Routes, PUT, [loanId, "status"], authorization, o).Reaches? <==> TreasuryRole(HeaderAuth.ProtectResult(authorization, o))
  {
    var p := HeaderAuth.ProtectResult(authorization, o);
    StatusPathFallsThrough(loanId);
    SelectAppend(Table("user", Crud), Extra, PUT, [loanId, "status"]);
    assert PatternMatches(Extra[0].pattern, [loanId, "status"]);
    SelectAt(Extra, 0, PUT, [loanId, "status"]);
    DecideGuardedBy(Routes, PUT, [loanId, "status"], IsTreasurerOrAssistantTreasurer, authorization, o);
    if p.Proceed? && p.user.Some? {
      OfficeGuardsExact(p.user.value);
    }
  }

  /** Generating a loan number needs the treasury roles. */
  lemma LoanNumberDecision(authorization: Option<string>, o: Oracles)
    ensures Decide(Routes, GET, ["util", "generate-loan-number"], authorization, o).Reaches? <==> TreasuryRole(HeaderAuth.ProtectResult(authorization, o))
  {
    var p := HeaderAuth.ProtectResult(authorization, o);
    var path := ["util", "generate-loan-number"];
    UtilPathsFallThrough("generate-loan-number");
    SelectAppend(Table("user", Crud), Extra, GET, path);
    assert PatternMatches(Extra[1].pattern, path);
    SelectAt(Extra, 1, GET, path);
    DecideGuardedBy(Routes, GET, path, IsTreasurerOrAssistantTreasurer, authorization, o);
    if p.Proceed? && p.user.Some? {
      OfficeGuardsExact(p.user.value);
    }
  }

  /** Listing loans by status needs only a token `protect` accepts. */
  lemma ByStatusDecision(authorization: Option<string>, o: Oracles)
    ensures Decide(Routes, GET, ["util", "loans-by-status"], authorization, o).Reaches? <==> HeaderAuth.ProtectResult(authorization, o).Proceed?
  {
    var path := ["util", "loans-by-status"];
    UtilPathsFallThrough("loans-by-status");
    SelectAppend(Table("user", Crud), Extra, GET, path);
    assert !Applies(Extra[1], GET, path) by {
      assert Extra[1].pattern[1] == Lit("generate-loan-number");
      assert "loans-by-status"[0] != "generate-loan-number"[0];
      assert !SegmentMatches(Extra[1].pattern[1], path[1]);
    }
    assert PatternMatches(Extra[2].pattern, path);
    SelectAt(Extra, 2, GET, path);
    DecideProtected(Routes, GET, path, authorization, o);
  }

  /** `isAdmin` is imported but used in no chain, so an `admin` reaches no
      loan handler that changes anything. */
  lemma IsAdminUnusedHere()
    ensures forall rt :: rt in Routes ==> Check(IsAdmin) !in rt.chain
  {
    IsAdminUnused("user", Crud);
    forall rt | rt in Routes
      ensures Check(IsAdmin) !in rt.chain
    {
      if rt !in Table("user", Crud) {
        assert rt in Extra;
        assert rt.chain == [Protect, Treasury] || rt.chain == [Protect];
      }
    }
  }

  /** Every loan registration is `protect` followed by guards. */
  lemma AllGuardedHere()
    ensures forall rt :: rt in Routes ==> Guarded(rt.chain)
  {
    AllGuarded("user", Crud);
    forall rt | rt in Routes
      ensures Guarded(rt.chain)
    {
      if rt !in Table("user", Crud) {
        assert rt in Extra;
        assert rt.chain[1..] == [Treasury] || rt.chain[1..] == [];
      }
    }
  }

  /** Every loan write needs the treasury guard and every delete the super
      admin guard, the later registrations included; every read other than
      loan-number generation needs only `protect`. */
  lemma WriteChains()
    ensures forall rt :: rt in Routes ==>
      && (rt.verb == POST || rt.verb == PUT ==> rt.chain == [Protect, Treasury])
      && (rt.verb == DELETE ==> rt.chain == [Protect, Check(IsSuperAdmin)])
      && (rt.verb == GET && rt.handler != "generateLoanNumber" ==> rt.chain == [Protect])
  {
    ChainsByVerb("user", Crud);
    forall rt | rt in Routes
      ensures && (rt.verb == POST || rt.verb == PUT ==> rt.chain == [Protect, Treasury])
              && (rt.verb == DELETE ==> rt.chain == [Protect, Check(IsSuperAdmin)])
              && (rt.verb == GET && rt.handler != "generateLoanNumber" ==> rt.chain == [Protect])
    {
      if rt !in Table("user", Crud) {
        assert rt == Extra[0] || rt == Extra[1] || rt == Extra[2];
      }
    }
  }

  /** Every loan registration runs `protect`. */
  lemma NonePublicHere()
    ensures forall rt :: rt in Routes ==> rt.chain != [] && rt.chain[0] == Protect
  {
    NonePublic("user", Crud);
    forall rt | rt in Routes
      ensures rt.chain != [] && rt.chain[0] == Protect
    {
      if rt !in Table("user", Crud) {
        assert rt == Extra[0] || rt == Extra[1] || rt == Extra[2];
      }
    }
  }
}
