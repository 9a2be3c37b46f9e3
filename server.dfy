/** server.js: the greeting at `/`, the CORS origin check, and the table of
    mounted routers, consulted in order. */
module Server {
  import opened Wrappers
  import opened Guards
  import opened Identity
  import opened Routing
  import HeaderAuth
  import BenefitRoutes
  import UserRoutes
  import LoanRoutes
  import AdminRoutes
  import EmailRoutes
  import DeathFundRoutes
  import ScholarshipRoutes
  import MedicalRoutes
  import RefundRoutes
  import RetirementRoutes
  import LogRoutes
  import MemberModel
  import EmailController
  import Config

  const AllowedOrigins: seq<string> := ["http://localhost:5173", "http://localhost:5000"]

  /** The `origin` callback: a missing (or empty) Origin is let through,
      any other only when it is listed exactly. */
  predicate CorsAllows(origin: Option<string>)
  {
    !Given(origin) || origin.value in AllowedOrigins
  }

  datatype RouterId = Members | Loans | Admins | Email | DeathFunds | Scholarships | Medicals | Refunds | Retirements

  /** The registrations of each router. */
  function RoutesOf(r: RouterId): seq<Route>
  {
    match r
    case Members => UserRoutes.Routes
    case Loans => LoanRoutes.Routes
    case Admins => AdminRoutes.Routes
    case Email => EmailRoutes.Routes
    case DeathFunds => DeathFundRoutes.Routes
    case Scholarships => ScholarshipRoutes.Routes
    case Medicals => MedicalRoutes.Routes
    case Refunds => RefundRoutes.Routes
    case Retirements => RetirementRoutes.Routes
  }

  /** `app.use(prefix, router)`. */
  datatype Mount = Mount(prefix: seq<string>, router: RouterId)

  const Mounts: seq<Mount> := [
    Mount(["api", "members"], Members),
    Mount(["api", "loans"], Loans),
    Mount(["api", "admins"], Admins),
    Mount(["api"], Email),
    Mount(["api", "deathfunds"], DeathFunds),
    Mount(["api", "scholarships"], Scholarships),
    Mount(["api", "medicals"], Medicals),
    Mount(["api", "refunds"], Refunds),
    Mount(["api", "retirements"], Retirements)
  ]

  /** The parts of a request the application reads: the path split at `/`
      (`/` itself is the empty path). */
  datatype HttpRequest = HttpRequest(verb: Verb, path: seq<string>, origin: Option<string>, authorization: Option<string>)

  /** What becomes of a request: the greeting, the CORS error passed to the
      error handler, the not-found handler, an answer from `protect` or a
      guard, or a route handler reached with the `req.user` it sees. */
  datatype Outcome =
    | Hello
    | CorsError
    | NotFound
    | Denied(status: int, message: string)
    | Reached(router: RouterId, route: Route, user: Option<User>)

  /** One mount's router, given the request only when the prefix matches. */
  function MountDecide(m: Mount, req: HttpRequest, o: Oracles): Decision
  {
    if m.prefix <= req.path then Decide(RoutesOf(m.router), req.verb, req.path[|m.prefix|..], req.authorization, o) else NoRoute
  }

  /** A mount hands the request on when its prefix does not match or its
      router has no registration for it. */
  function DispatchMounts(ms: seq<Mount>, req: HttpRequest, o: Oracles): (r: Outcome)
    ensures r.Reached? ==> exists m :: m in ms && m.router == r.router && r.route in RoutesOf(m.router) &&
                             m.prefix <= req.path && Applies(r.route, req.verb, req.path[|m.prefix|..])
    ensures r.Denied? ==> r.status == 401 || r.status == 403
    ensures !r.Hello? && !r.CorsError?
  {
    if ms == [] then NotFound
    else
      var m := ms[0];
      match MountDecide(m, req, o)
      case NoRoute => DispatchMounts(ms[1..], req, o)
      case Denied(status, message) => Outcome.Denied(status, message)
      case Reaches(rt, u) => assert m in ms; Reached(m.router, rt, u)
  }

  function Dispatch(req: HttpRequest, o: Oracles): (r: Outcome)
    ensures r.Hello? <==> req.verb == GET && req.path == []
    ensures r.CorsError? <==> !(req.verb == GET && req.path == []) && !CorsAllows(req.origin)
    ensures r.Reached? ==> CorsAllows(req.origin)
    ensures r.Reached? ==>
              exists m :: m in Mounts && m.router == r.router && r.route in RoutesOf(m.router) &&
                          m.prefix <= req.path && Applies(r.route, req.verb, req.path[|m.prefix|..])
  {
    if req.verb == GET && req.path == [] then Hello
    else if !CorsAllows(req.origin) then CorsError
    else DispatchMounts(Mounts, req, o)
  }

  /** The origin check admits no Origin, an empty one, and exactly the two
      listed origins. */
  lemma CorsDecision(origin: string)
    ensures CorsAllows(None)
    ensures CorsAllows(Some(origin)) <==>
              origin == "" || origin == "http://localhost:5173" || origin == "http://localhost:5000"
  {
  }

  /** Mounts that hand a request on are skipped. */
  lemma {:induction false} DispatchSkips(ms: seq<Mount>, i: nat, req: HttpRequest, o: Oracles)
    requires i <= |ms|
    requires forall j :: 0 <= j < i ==> MountDecide(ms[j], req, o).NoRoute?
    ensures DispatchMounts(ms, req, o) == DispatchMounts(ms[i..], req, o)
    decreases i
  {
    if i > 0 {
      assert MountDecide(ms[0], req, o).NoRoute?;
      assert forall j :: 0 <= j < i - 1 ==> ms[1..][j] == ms[j + 1];
      DispatchSkips(ms[1..], i - 1, req, o);
      assert ms[1..][i - 1..] == ms[i..];
    }
  }

  /** The first mount whose router has a registration for the request decides it. */
  lemma DispatchAt(ms: seq<Mount>, i: nat, req: HttpRequest, o: Oracles)
    requires i < |ms|
    requires forall j :: 0 <= j < i ==> MountDecide(ms[j], req, o).NoRoute?
    requires MountDecide(ms[i], req, o).Reaches?
    ensures DispatchMounts(ms, req, o)
         == Reached(ms[i].router, MountDecide(ms[i], req, o).route, MountDecide(ms[i], req, o).user)
  {
    DispatchSkips(ms, i, req, o);
    assert ms[i..][0] == ms[i];
  }

  /** Every registration of a router is `protect` followed by guards, or
      has no middleware. */
  predicate RouterGuarded(routes: seq<Route>)
  {
    forall rt :: rt in routes ==> Guarded(rt.chain)
  }

  /** Every router is guarded in that sense. */
  lemma RoutersGuarded(r: RouterId)
    ensures RouterGuarded(RoutesOf(r))
  {
    match r
    case Members => UserRoutes.AllGuardedHere();
    case Loans => LoanRoutes.AllGuardedHere();
    case Admins =>
      assert Guarded(AdminRoutes.Routes[0].chain) && Guarded(AdminRoutes.Routes[1].chain);
    case Email =>
      assert Guarded(EmailRoutes.Routes[0].chain);
    case DeathFunds => BenefitRoutes.AllGuarded("benefits", DeathFundRoutes.Crud);
    case Scholarships => BenefitRoutes.AllGuarded("benefits", ScholarshipRoutes.Crud);
    case Medicals => BenefitRoutes.AllGuarded("benefits", MedicalRoutes.Crud);
    case Refunds => BenefitRoutes.AllGuarded("benefits", RefundRoutes.Crud);
    case Retirements => BenefitRoutes.AllGuarded("benefits", RetirementRoutes.Crud);
  }

  /** What the mounted routers do with a request they receive: a handler
      with no middleware sees no user; any other is reached only with the
      user `protect` attached and every guard of its chain admits; a 401
      comes from `protect`, a 403 only after `protect` let the request through. */
  lemma {:induction false} MountsAdmit(ms: seq<Mount>, req: HttpRequest, o: Oracles)
    ensures
      var r := DispatchMounts(ms, req, o);
      var p := HeaderAuth.ProtectResult(req.authorization, o);
      && (r.Reached? && r.route.chain == [] ==> r.user == None)
      && (r.Reached? && r.route.chain != [] ==> p.Proceed? && r.user == p.user && ChainAdmitsUser(r.route.chain, r.user))
      && (r.Denied? ==> (r.status == 401 && p.Reject? && r.message == p.message) || (r.status == 403 && p.Proceed?))
    decreases |ms|
  {
    if ms != [] {
      var m := ms[0];
      RoutersGuarded(m.router);
      if m.prefix <= req.path {
        var path := req.path[|m.prefix|..];
        if Select(RoutesOf(m.router), req.verb, path).Some? {
          DecideMeaning(RoutesOf(m.router), req.verb, path, req.authorization, o);
        }
      }
      MountsAdmit(ms[1..], req, o);
    }
  }

  /** The same for the whole application. */
  lemma ReachedMeansAdmitted(req: HttpRequest, o: Oracles)
    ensures
      var r := Dispatch(req, o);
      var p := HeaderAuth.ProtectResult(req.authorization, o);
      && (r.Reached? && r.route.chain == [] ==> r.user == None)
      && (r.Reached? && r.route.chain != [] ==> p.Proceed? && r.user == p.user && ChainAdmitsUser(r.route.chain, r.user))
      && (r.Denied? ==> (r.status == 401 && p.Reject? && r.message == p.message) || (r.status == 403 && p.Proceed?))
  {
    MountsAdmit(Mounts, req, o);
  }

  /** Only three handlers have no middleware: member login, admin login and
      the contact form. */
  lemma PublicHandlers(r: RouterId, rt: Route)
    requires rt in RoutesOf(r) && rt.chain == []
    ensures rt.handler == "authUser" || rt.handler == "authAdmin" || rt.handler == "sendEmail"
  {
    match r
    case Members => UserRoutes.OnlyLoginPublic();
    case Loans => LoanRoutes.NonePublicHere();
    case Admins => AdminRoutes.OnlyLoginPublic();
    case Email =>
    case DeathFunds => BenefitRoutes.NonePublic("benefits", DeathFundRoutes.Crud);
    case Scholarships => BenefitRoutes.NonePublic("benefits", ScholarshipRoutes.Crud);
    case Medicals => BenefitRoutes.NonePublic("benefits", MedicalRoutes.Crud);
    case Refunds => BenefitRoutes.NonePublic("benefits", RefundRoutes.Crud);
    case Retirements => BenefitRoutes.NonePublic("benefits", RetirementRoutes.Crud);
  }

  /** Without a usable bearer token a request is answered 401 "Not
      authorized, no token" before any guard runs, or reaches one of the
      three public handlers with no user. */
  lemma NoTokenOnlyPublic(req: HttpRequest, o: Oracles)
    requires !Given(BearerToken(req.authorization))
    ensures Dispatch(req, o).Denied? ==> Dispatch(req, o) == Outcome.Denied(401, "Not authorized, no token")
    ensures Dispatch(req, o).Reached? ==>
              Dispatch(req, o).user == None &&
              var h := Dispatch(req, o).route.handler;
              h == "authUser" || h == "authAdmin" || h == "sendEmail"
  {
    ReachedMeansAdmitted(req, o);
    HeaderAuth.NoTokenRejected(req.authorization, o);
    var r := Dispatch(req, o);
    if r.Reached? {
      var m :| m in Mounts && m.router == r.router && r.route in RoutesOf(m.router) &&
               m.prefix <= req.path && Applies(r.route, req.verb, req.path[|m.prefix|..]);
      PublicHandlers(r.router, r.route);
    }
  }

  /** The routers of the benefits and loans, where members' money moves. */
  predicate IsBenefitRouter(r: RouterId)
  {
    r.Loans? || r.DeathFunds? || r.Scholarships? || r.Medicals? || r.Refunds? || r.Retirements?
  }

  /** In those routers every create and update runs the treasury guard and
      every delete the super admin guard. */
  lemma BenefitWriteChains(r: RouterId)
    requires IsBenefitRouter(r)
    ensures forall rt :: rt in RoutesOf(r) ==>
      && (rt.verb == POST || rt.verb == PUT ==> rt.chain == [Protect, BenefitRoutes.Treasury])
      && (rt.verb == DELETE ==> rt.chain == [Protect, Check(IsSuperAdmin)])
  {
    if r.Loans? {
      LoanRoutes.WriteChains();
    } else {
      var h := BenefitHandlers(r);
      assert RoutesOf(r) == BenefitRoutes.Table("benefits", h);
      BenefitRoutes.ChainsByVerb("benefits", h);
    }
  }

  /** The five routers registered exactly in the benefit shape, with their handlers. */
  function BenefitHandlers(r: RouterId): (h: BenefitRoutes.Handlers)
    requires IsBenefitRouter(r) && !r.Loans?
    ensures RoutesOf(r) == BenefitRoutes.Table("benefits", h)
  {
    match r
    case DeathFunds => DeathFundRoutes.Crud
    case Scholarships => ScholarshipRoutes.Crud
    case Medicals => MedicalRoutes.Crud
    case Refunds => RefundRoutes.Crud
    case Retirements => RetirementRoutes.Crud
  }

  /** A request that reaches a loan or benefit handler that deletes came
      from a super admin, and one that creates or updates from a treasurer,
      an assistant treasurer or a super admin. */
  lemma BenefitWritesNeedOffice(req: HttpRequest, o: Oracles)
    requires Dispatch(req, o).Reached? && IsBenefitRouter(Dispatch(req, o).router)
    ensures
      var r := Dispatch(req, o);
      && (req.verb == DELETE ==> r.user.Some? && r.user.value.role == "super_admin")
      && (req.verb == POST || req.verb == PUT ==>
            r.user.Some? && (r.user.value.role == "treasurer" || r.user.value.role == "assistant_treasurer" || r.user.value.role == "super_admin"))
  {
    var r := Dispatch(req, o);
    ReachedMeansAdmitted(req, o);
    BenefitWriteChains(r.router);
    var m :| m in Mounts && m.router == r.router && r.route in RoutesOf(m.router) &&
             m.prefix <= req.path && Applies(r.route, req.verb, req.path[|m.prefix|..]);
    if req.verb == DELETE {
      assert Check(IsSuperAdmin) in r.route.chain;
      assert RunGuard(IsSuperAdmin, r.user).Next?;
      OfficeGuardsExact(r.user.value);
    } else if req.verb == POST || req.verb == PUT {
      assert BenefitRoutes.Treasury in r.route.chain;
      assert RunGuard(IsTreasurerOrAssistantTreasurer, r.user).Next?;
      OfficeGuardsExact(r.user.value);
    }
  }

  /** Wherever `isAdmin` guards a handler, only role exactly `admin`
      reaches it; a super admin does not. */
  lemma IsAdminMeansAdmin(req: HttpRequest, o: Oracles)
    requires Dispatch(req, o).Reached? && Check(IsAdmin) in Dispatch(req, o).route.chain
    ensures Dispatch(req, o).user.Some? && Dispatch(req, o).user.value.role == "admin"
  {
    var r := Dispatch(req, o);
    ReachedMeansAdmitted(req, o);
    assert RunGuard(IsAdmin, r.user).Next?;
    AdminGuardsExact(r.user.value);
  }

  /** A member document the schema accepts has role `admin` or `member`, so
      a request carrying it reaches no handler behind an office guard or the
      super admin guard. */
  lemma SchemaRolesReachNoOffice(req: HttpRequest, o: Oracles, id: string, member: MemberModel.Member)
    requires MemberModel.SchemaValid(member)
    requires Dispatch(req, o).Reached? && Dispatch(req, o).user == Some(MemberModel.AsUser(id, member))
    ensures forall s :: s in Dispatch(req, o).route.chain && s.Check? ==> !IsOfficeGuard(s.g) && s.g != IsSuperAdmin
  {
    var r := Dispatch(req, o);
    ReachedMeansAdmitted(req, o);
    forall s | s in r.route.chain && s.Check?
      ensures !IsOfficeGuard(s.g) && s.g != IsSuperAdmin
    {
      if IsOfficeGuard(s.g) || s.g == IsSuperAdmin {
        MemberModel.SchemaRolesPassNoOffice(id, member, s.g);
        assert false;
      }
    }
  }

  /** `/api/loans/<id>` passes the members mount by and goes to the loans router as `/<id>`. */
  lemma LoanPathMount(req: HttpRequest, id: string, o: Oracles)
    requires req.path == ["api", "loans", id]
    ensures MountDecide(Mounts[0], req, o).NoRoute?
    ensures MountDecide(Mounts[1], req, o) == Decide(LoanRoutes.Routes, req.verb, [id], req.authorization, o)
  {
    var m0, m1 := Mounts[0], Mounts[1];
    assert m0.prefix == ["api", "members"] && m1 == Mount(["api", "loans"], Loans);
    assert "members"[0] != "loans"[0];
    MountMiss(m0, req, o);
    assert req.path[|m1.prefix|..] == [id];
    MountHit(m1, req, o);
  }

  /** A mount whose second prefix segment differs from the path's hands the request on. */
  lemma MountMiss(m: Mount, req: HttpRequest, o: Oracles)
    requires 2 <= |m.prefix| && 2 <= |req.path| && m.prefix[1] != req.path[1]
    ensures MountDecide(m, req, o) == NoRoute
  {
  }

  /** A mount whose prefix matches gives its router the rest of the path. */
  lemma MountHit(m: Mount, req: HttpRequest, o: Oracles)
    requires m.prefix <= req.path
    ensures MountDecide(m, req, o) == Decide(RoutesOf(m.router), req.verb, req.path[|m.prefix|..], req.authorization, o)
  {
  }

  /** Whoever `protect` lets through reads a loan application. */
  lemma LoanViewDispatch(req: HttpRequest, id: string, o: Oracles)
    requires req.verb == GET && req.path == ["api", "loans", id] && id != "" && CorsAllows(req.origin)
    requires HeaderAuth.ProtectResult(req.authorization, o).Proceed?
    ensures Dispatch(req, o) == Reached(Loans, Route(GET, [Param], [Protect], "viewSingleLoanApplication"),
                                        HeaderAuth.ProtectResult(req.authorization, o).user)
  {
    var rt := Route(GET, [Param], [Protect], "viewSingleLoanApplication");
    var u := HeaderAuth.ProtectResult(req.authorization, o).user;
    LoanPathMount(req, id, o);
    LoanRoutes.ViewDecision(id, req.authorization, o);
    calc {
      Dispatch(req, o);
    ==
      DispatchMounts(Mounts, req, o);
    == { DispatchAt(Mounts, 1, req, o); }
      Reached(Mounts[1].router, rt, u);
    }
  }

  /** A member whose document was deleted after the token was issued still
      reads a loan application: `protect` lets the request through with no
      user and the read needs nothing more. */
  lemma DeletedUserReadsLoan(id: string, t: string, origin: Option<string>, o: Oracles)
    requires id != "" && ' ' !in t && t != ""
    requires t in o.verify && o.verify[t] !in o.users && !o.storeDown
    requires CorsAllows(origin)
    ensures Dispatch(HttpRequest(GET, ["api", "loans", id], origin, Some("Bearer " + t)), o)
         == Reached(Loans, Route(GET, [Param], [Protect], "viewSingleLoanApplication"), None)
  {
    HeaderAuth.DeletedUserProceeds(t, o);
    LoanViewDispatch(HttpRequest(GET, ["api", "loans", id], origin, Some("Bearer " + t)), id, o);
  }

  /** `/api/contact` passes the first three mounts by and goes to the contact
      form's router as `/contact`. */
  lemma ContactPathMount(req: HttpRequest, o: Oracles)
    requires req.path == ["api", "contact"]
    ensures forall j :: 0 <= j < 3 ==> MountDecide(Mounts[j], req, o).NoRoute?
    ensures MountDecide(Mounts[3], req, o) == Decide(EmailRoutes.Routes, req.verb, ["contact"], req.authorization, o)
  {
    ContactMissesFirstMounts(req, o);
    var m3 := Mounts[3];
    assert m3 == Mount(["api"], Email);
    assert req.path[|m3.prefix|..] == ["contact"];
    MountHit(m3, req, o);
  }

  lemma ContactMissesFirstMounts(req: HttpRequest, o: Oracles)
    requires req.path == ["api", "contact"]
    ensures MountDecide(Mounts[0], req, o).NoRoute?
    ensures MountDecide(Mounts[1], req, o).NoRoute?
    ensures MountDecide(Mounts[2], req, o).NoRoute?
  {
    assert "members"[0] != "contact"[0] && "loans"[0] != "contact"[0] && "admins"[0] != "contact"[0];
    MountMiss(Mounts[0], req, o);
    MountMiss(Mounts[1], req, o);
    MountMiss(Mounts[2], req, o);
  }

  /** The contact form is reached by anyone the origin check admits, with no
      user whatever the Authorization header says; so every audit record it
      writes has a null user. */
  lemma ContactAuditedAnonymously(origin: Option<string>, authorization: Option<string>, o: Oracles,
                                  form: EmailController.ContactForm, env: Config.Env,
                                  c: EmailController.Client, x: EmailController.Faults)
    requires CorsAllows(origin)
    ensures
      var r := Dispatch(HttpRequest(POST, ["api", "contact"], origin, authorization), o);
      && r == Reached(Email, Route(POST, [Lit("contact")], [], "sendEmail"), None)
      && forall e :: e in EmailController.Expected(form, env, r.user, c, x).events ==> e.user == None
  {
    var req := HttpRequest(POST, ["api", "contact"], origin, authorization);
    ContactPathMount(req, o);
    EmailRoutes.ContactPublic(authorization, o);
    DispatchAt(Mounts, 3, req, o);
    EmailController.RecordsTagged(form, env, None, c, x);
  }

  /** Under `/api/logs` no mount's prefix matches except the contact
      form's `/api`, and its one registration is not for `logs`. */
  lemma LogPathsMissMounts(req: HttpRequest, o: Oracles)
    requires 2 <= |req.path| && req.path[..2] == ["api", "logs"]
    ensures forall j :: 0 <= j < |Mounts| ==> MountDecide(Mounts[j], req, o).NoRoute?
  {
    assert req.path[1] == "logs";
    forall j | 0 <= j < |Mounts| && j != 3
      ensures MountDecide(Mounts[j], req, o).NoRoute?
    {
      var seg := Mounts[j].prefix[1];
      assert seg[0] != 'l' || seg[2] != 'g';
      MountMiss(Mounts[j], req, o);
    }
    var rest := req.path[1..];
    assert Mounts[3] == Mount(["api"], Email) && req.path[|Mounts[3].prefix|..] == rest;
    MountHit(Mounts[3], req, o);
    LogPathMissesContact(req.verb, rest);
  }

  /** The contact form's router has nothing under `/logs`. */
  lemma LogPathMissesContact(verb: Verb, rest: Path)
    requires 1 <= |rest| && rest[0] == "logs"
    ensures Select(EmailRoutes.Routes, verb, rest).None?
  {
    assert "logs"[0] != "contact"[0];
    assert !PatternMatches(EmailRoutes.Routes[0].pattern, rest);
    SelectNone(EmailRoutes.Routes, verb, rest);
  }

  /** The audit-log router is never mounted: its two queries end in the
      not-found handler for every verb and every caller. */
  lemma LogQueriesNotFound(verb: Verb, stats: bool, origin: Option<string>, authorization: Option<string>, o: Oracles)
    requires CorsAllows(origin)
    ensures
      var path := if stats then ["api", "logs", "stats"] else ["api", "logs"];
      Dispatch(HttpRequest(verb, path, origin, authorization), o) == NotFound
  {
    var path := if stats then ["api", "logs", "stats"] else ["api", "logs"];
    var req := HttpRequest(verb, path, origin, authorization);
    assert path[..2] == ["api", "logs"];
    LogPathsMissMounts(req, o);
    DispatchSkips(Mounts, 9, req, o);
  }
}
