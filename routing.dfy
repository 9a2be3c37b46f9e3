/** Express routing as the route files use it: a router is an ordered table
    of (verb, path pattern, middleware chain, handler); a request runs the
    chain of the first entry whose verb and pattern match, and falls through
    to whatever is mounted next when none does. */
module Routing {
  import opened Wrappers
  import opened Guards
  import opened Identity
  import HeaderAuth

  datatype Verb = GET | POST | PUT | DELETE

  /** A path pattern segment: literal text, or a `:name` parameter. */
  datatype Segment = Lit(text: string) | Param

  /** A request path after the router's mount prefix, split at `/`. */
  type Path = seq<string>

  /** The middleware before a handler: `protect`, or one of the role guards. */
  datatype Step = Protect | Check(g: Guard)

  /** One registration such as `router.put("/:id", protect, isX, handler)`;
      the handler is an opaque label. */
  datatype Route = Route(verb: Verb, pattern: seq<Segment>, chain: seq<Step>, handler: string)

  /** A parameter matches one non-empty segment, a literal only itself. */
  predicate SegmentMatches(p: Segment, s: string)
  {
    if p.Lit? then s == p.text else s != ""
  }

  predicate PatternMatches(pattern: seq<Segment>, path: Path)
  {
    |pattern| == |path| && forall i :: 0 <= i < |pattern| ==> SegmentMatches(pattern[i], path[i])
  }

  predicate Applies(r: Route, verb: Verb, path: Path)
  {
    r.verb == verb && PatternMatches(r.pattern, path)
  }

  /** The registration Express selects: the first, in registration order,
      that matches both verb and path. */
  function Select(routes: seq<Route>, verb: Verb, path: Path): (r: Option<Route>)
    ensures r.Some? ==> r.value in routes && Applies(r.value, verb, path)
  {
    if routes == [] then None
    else if Applies(routes[0], verb, path) then Some(routes[0])
    else Select(routes[1..], verb, path)
  }

  /** Nothing is selected exactly when no registration matches. */
  lemma {:induction false} SelectNone(routes: seq<Route>, verb: Verb, path: Path)
    ensures Select(routes, verb, path).None? <==> forall rt :: rt in routes ==> !Applies(rt, verb, path)
    decreases |routes|
  {
    if routes != [] {
      assert forall rt :: rt in routes <==> rt == routes[0] || rt in routes[1..];
      SelectNone(routes[1..], verb, path);
    }
  }

  /** The selected registration is the first that matches. */
  lemma {:induction false} SelectFirst(routes: seq<Route>, verb: Verb, path: Path)
    requires Select(routes, verb, path).Some?
    ensures exists i :: 0 <= i < |routes| && routes[i] == Select(routes, verb, path).value &&
              forall j :: 0 <= j < i ==> !Applies(routes[j], verb, path)
    decreases |routes|
  {
    if !Applies(routes[0], verb, path) {
      SelectFirst(routes[1..], verb, path);
      var i :| 0 <= i < |routes[1..]| && routes[1..][i] == Select(routes, verb, path).value &&
               forall j :: 0 <= j < i ==> !Applies(routes[1..][j], verb, path);
      assert routes[i + 1] == Select(routes, verb, path).value;
      forall j | 0 <= j < i + 1
        ensures !Applies(routes[j], verb, path)
      {
        if j > 0 { assert routes[j] == routes[1..][j - 1]; }
      }
    } else {
      assert routes[0] == Select(routes, verb, path).value;
    }
  }

  /** How far a request gets through a chain: stopped with a status, or
      admitted to the handler with the `req.user` the chain left behind. */
  datatype ChainOutcome = Halt(status: int, message: string) | Admit(user: Option<User>)

  /** Running the middleware in order; each `protect` reads only the
      request's Authorization header, each guard only `req.user`. */
  function RunChain(chain: seq<Step>, authorization: Option<string>, o: Oracles, user: Option<User>): (r: ChainOutcome)
    ensures r.Halt? ==> r.status == 401 || r.status == 403
    ensures r.Halt? && r.status == 401 ==> Protect in chain
    ensures r.Halt? && r.status == 403 ==> exists s :: s in chain && s.Check?
    decreases |chain|
  {
    if chain == [] then Admit(user)
    else
      assert forall s :: s in chain[1..] ==> s in chain;
      match chain[0]
      case Protect =>
        var p := HeaderAuth.ProtectResult(authorization, o);
        if p.Reject? then Halt(p.status, p.message)
        else RunChain(chain[1..], authorization, o, p.user)
      case Check(g) =>
        var d := RunGuard(g, user);
        if d.Deny? then
          assert chain[0] in chain;
          Halt(d.status, d.message)
        else RunChain(chain[1..], authorization, o, user)
  }

  /** The chain shapes the route files use: no middleware at all, or
      `protect` followed only by role guards. */
  predicate Guarded(chain: seq<Step>)
  {
    chain == [] || (chain[0] == Protect && forall s :: s in chain[1..] ==> s.Check?)
  }

  /** A run of guards alone admits exactly when every guard admits the
      current user, leaves `req.user` alone, and otherwise stops with 403. */
  lemma {:induction false} ChecksDecision(checks: seq<Step>, authorization: Option<string>, o: Oracles, u: Option<User>)
    requires forall s :: s in checks ==> s.Check?
    ensures RunChain(checks, authorization, o, u).Admit? <==> forall s :: s in checks ==> RunGuard(s.g, u).Next?
    ensures RunChain(checks, authorization, o, u).Admit? ==> RunChain(checks, authorization, o, u).user == u
    ensures RunChain(checks, authorization, o, u).Halt? ==> RunChain(checks, authorization, o, u).status == 403
    decreases |checks|
  {
    if checks != [] {
      assert checks[0] in checks;
      assert forall s :: s in checks <==> s == checks[0] || s in checks[1..];
      ChecksDecision(checks[1..], authorization, o, u);
    }
  }

  /** The decision table of one guarded chain, entered with no user: no
      middleware admits anonymously; otherwise `protect` decides 401 first,
      and only then the guards decide 403 against the user it attached. */
  lemma ChainDecision(chain: seq<Step>, authorization: Option<string>, o: Oracles)
    requires Guarded(chain)
    ensures chain == [] ==> RunChain(chain, authorization, o, None) == Admit(None)
    ensures chain != [] && HeaderAuth.ProtectResult(authorization, o).Reject? ==>
              RunChain(chain, authorization, o, None) == Halt(401, HeaderAuth.ProtectResult(authorization, o).message)
    ensures chain != [] && HeaderAuth.ProtectResult(authorization, o).Proceed? ==>
              var u := HeaderAuth.ProtectResult(authorization, o).user;
              var r := RunChain(chain, authorization, o, None);
              && (r.Admit? <==> forall s :: s in chain[1..] ==> RunGuard(s.g, u).Next?)
              && (r.Admit? ==> r.user == u)
              && (r.Halt? ==> r.status == 403)
  {
    var p := HeaderAuth.ProtectResult(authorization, o);
    if chain != [] && p.Proceed? {
      ChecksDecision(chain[1..], authorization, o, p.user);
    }
  }

  /** What a router does with a request: no registration matches (Express
      moves on to the next mount), the chain stops it, or the handler runs. */
  datatype Decision = NoRoute | Denied(status: int, message: string) | Reaches(route: Route, user: Option<User>)

  /** `req.user` is unset when a router receives the request. */
  function Decide(routes: seq<Route>, verb: Verb, path: Path, authorization: Option<string>, o: Oracles): (d: Decision)
    ensures d.NoRoute? <==> Select(routes, verb, path).None?
    ensures d.Reaches? ==> Select(routes, verb, path) == Some(d.route)
    ensures d.Denied? ==> d.status == 401 || d.status == 403
  {
    match Select(routes, verb, path)
    case None => NoRoute
    case Some(rt) =>
      match RunChain(rt.chain, authorization, o, None)
      case Halt(status, message) => Denied(status, message)
      case Admit(u) => Reaches(rt, u)
  }

  /** The role `u` holds passes every guard of `chain`. */
  predicate ChainAdmitsUser(chain: seq<Step>, u: Option<User>)
  {
    forall s :: s in chain && s.Check? ==> RunGuard(s.g, u).Next?
  }

  /** A router whose chains are all guarded decides by the table: a route
      with no middleware reaches its handler with no user; otherwise no
      token or a bad token is 401, a user the guards refuse is 403, and the
      handler is reached exactly when `protect` proceeds and every guard of
      the chain admits the user it attached. */
  lemma DecideMeaning(routes: seq<Route>, verb: Verb, path: Path, authorization: Option<string>, o: Oracles)
    requires forall rt :: rt in routes ==> Guarded(rt.chain)
    requires Select(routes, verb, path).Some?
    ensures
      var rt := Select(routes, verb, path).value;
      var p := HeaderAuth.ProtectResult(authorization, o);
      var d := Decide(routes, verb, path, authorization, o);
      && (rt.chain == [] ==> d == Reaches(rt, None))
      && (rt.chain != [] && p.Reject? ==> d == Denied(401, p.message))
      && (rt.chain != [] ==> (d.Reaches? <==> p.Proceed? && ChainAdmitsUser(rt.chain, p.user)))
      && (rt.chain != [] && d.Reaches? ==> d.user == p.user)
      && (rt.chain != [] && p.Proceed? && !d.Reaches? ==> d.Denied? && d.status == 403)
  {
    var rt := Select(routes, verb, path).value;
    ChainDecision(rt.chain, authorization, o);
    if rt.chain != [] {
      assert forall s :: s in rt.chain && s.Check? <==> s in rt.chain[1..] by {
        assert rt.chain == [rt.chain[0]] + rt.chain[1..];
      }
    }
  }

  /** Registrations appended later are consulted only when none of the
      earlier ones matches. */
  lemma {:induction false} SelectAppend(a: seq<Route>, b: seq<Route>, verb: Verb, path: Path)
    ensures Select(a, verb, path).Some? ==> Select(a + b, verb, path) == Select(a, verb, path)
    ensures Select(a, verb, path).None? ==> Select(a + b, verb, path) == Select(b, verb, path)
    decreases |a|
  {
    if a == [] {
      assert a + b == b;
    } else {
      assert (a + b)[0] == a[0];
      assert (a + b)[1..] == a[1..] + b;
      SelectAppend(a[1..], b, verb, path);
    }
  }

  /** The registration at `i` is selected when it matches and none before it does. */
  lemma {:induction false} SelectAt(routes: seq<Route>, i: nat, verb: Verb, path: Path)
    requires i < |routes| && Applies(routes[i], verb, path)
    requires forall j :: 0 <= j < i ==> !Applies(routes[j], verb, path)
    ensures Select(routes, verb, path) == Some(routes[i])
    decreases i
  {
    if i > 0 {
      assert !Applies(routes[0], verb, path);
      assert forall j :: 0 <= j < i - 1 ==> routes[1..][j] == routes[j + 1];
      SelectAt(routes[1..], i - 1, verb, path);
    }
  }

  /** A registration guarded by `protect` alone admits exactly the requests
      `protect` lets through, with the user it attached. */
  lemma DecideProtected(routes: seq<Route>, verb: Verb, path: Path, authorization: Option<string>, o: Oracles)
    requires Select(routes, verb, path).Some? && Select(routes, verb, path).value.chain == [Protect]
    ensures
      var p := HeaderAuth.ProtectResult(authorization, o);
      var d := Decide(routes, verb, path, authorization, o);
      && (p.Reject? ==> d == Denied(401, p.message))
      && (p.Proceed? ==> d == Reaches(Select(routes, verb, path).value, p.user))
  {
    var rt := Select(routes, verb, path).value;
    var p := HeaderAuth.ProtectResult(authorization, o);
    if p.Proceed? {
      assert rt.chain[1..] == [];
      assert RunChain(rt.chain, authorization, o, None) == RunChain([], authorization, o, p.user);
    }
  }

  /** A registration guarded by `protect` and then `g` answers 401 when
      `protect` refuses, 403 when `g` refuses the attached user, and
      otherwise reaches the handler with that user. */
  lemma DecideGuardedBy(routes: seq<Route>, verb: Verb, path: Path, g: Guard, authorization: Option<string>, o: Oracles)
    requires Select(routes, verb, path).Some? && Select(routes, verb, path).value.chain == [Protect, Check(g)]
    ensures
      var p := HeaderAuth.ProtectResult(authorization, o);
      var d := Decide(routes, verb, path, authorization, o);
      && (p.Reject? ==> d == Denied(401, p.message))
      && (p.Proceed? && RunGuard(g, p.user).Deny? ==> d == Denied(403, DenyMessage(g)))
      && (p.Proceed? && RunGuard(g, p.user).Next? ==> d == Reaches(Select(routes, verb, path).value, p.user))
  {
    var rt := Select(routes, verb, path).value;
    var p := HeaderAuth.ProtectResult(authorization, o);
    if p.Proceed? {
      assert rt.chain[1..] == [Check(g)];
      assert [Check(g)][1..] == [];
      assert RunChain(rt.chain, authorization, o, None) == RunChain([Check(g)], authorization, o, p.user);
      if RunGuard(g, p.user).Next? {
        assert RunChain([Check(g)], authorization, o, p.user) == RunChain([], authorization, o, p.user);
      } else {
        assert RunGuard(g, p.user) == Deny(403, DenyMessage(g));
      }
    }
  }

  /** A registration with no middleware reaches its handler for everyone,
      with no user. */
  lemma DecidePublic(routes: seq<Route>, verb: Verb, path: Path, authorization: Option<string>, o: Oracles)
    requires Select(routes, verb, path).Some? && Select(routes, verb, path).value.chain == []
    ensures Decide(routes, verb, path, authorization, o) == Reaches(Select(routes, verb, path).value, None)
  {
  }
}
