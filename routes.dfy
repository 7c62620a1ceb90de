/** The route tables of the bootcamps, courses, users and auth routers, how a request is matched
    against them, and what the guard middleware in front of each handler lets through. */
module Routes {
  import opened Base
  import opened Errors
  import opened Libraries
  import opened UserModel
  import opened Http
  import AuthMiddleware

  datatype Verb = GET | POST | PUT | DELETE

  /** A segment of a route pattern: literal text or a `:name` parameter. */
  datatype Segment = Lit(text: string) | Param(name: string)

  /** The guard middleware of the core. */
  datatype Guard = Protect | Authorize(roles: seq<string>)

  /** What stands after the guards: a handler, a handler behind the filtering middleware
      (`advancedResults`, which only prepares results), or Express's final not-found handler. */
  datatype Endpoint = Handler(name: string) | Filtered(name: string) | NotFound

  datatype Route = Route(verb: Verb, path: seq<Segment>, guards: seq<Guard>, endpoint: Endpoint)

  /** The routers of the application. */
  datatype RouterName = Bootcamps | Courses | Reviews | Users | Auth

  /** `router.use(prefix, child)`, naming the child router. */
  datatype Mount = Mount(prefix: seq<Segment>, router: RouterName)

  /** An express.Router: the guards it `use`s for every request, the routers it mounts and its
      routes, consulted in that order (the order in which each of the four registers them). */
  datatype Router = Router(mergeParams: bool, uses: seq<Guard>, mounts: seq<Mount>, routes: seq<Route>)

  const PublisherOrAdmin: seq<string> := ["publisher", "admin"]
  const AdminOnly: seq<string> := ["admin"]

  const PublisherGuards: seq<Guard> := [Protect, Authorize(PublisherOrAdmin)]

  const BootcampsRouter: Router := Router(false, [],
    [Mount([Param("bootcampId"), Lit("courses")], Courses),
     Mount([Param("bootcampId"), Lit("reviews")], Reviews)],
    [Route(GET, [Lit("radius"), Param("zipcode"), Param("distance")], [], Handler("getBootcampsInRadius")),
     Route(GET, [], [], Filtered("getBootcamps")),
     Route(POST, [], PublisherGuards, Handler("createBootcamp")),
     Route(GET, [Param("id")], [], Handler("getBootcamp")),
     Route(PUT, [Param("id")], PublisherGuards, Handler("updateBootcamp")),
     Route(DELETE, [Param("id")], PublisherGuards, Handler("deleteBootcamp")),
     Route(PUT, [Param("id"), Lit("photo")], PublisherGuards, Handler("uploadPhoto"))])

  const CoursesRouter: Router := Router(true, [], [],
    [Route(GET, [], [], Filtered("getCourses")),
     Route(POST, [], PublisherGuards, Handler("createCourse")),
     Route(GET, [Param("id")], [], Handler("getCourseById")),
     Route(PUT, [Param("id")], PublisherGuards, Handler("updateCourse")),
     Route(DELETE, [Param("id")], PublisherGuards, Handler("deleteCourse"))])

  const UsersRouter: Router := Router(true, [Protect, Authorize(AdminOnly)], [],
    [Route(GET, [], [], Filtered("getUsers")),
     Route(POST, [], [], Handler("createUser"))])

  const AuthRouter: Router := Router(false, [], [],
    [Route(POST, [Lit("register")], [], Handler("registerUser")),
     Route(POST, [Lit("login")], [], Handler("loginUser")),
     Route(GET, [Lit("me")], [Protect], Handler("getMe")),
     Route(GET, [Lit("logout")], [Protect], Handler("logout")),
     Route(PUT, [Lit("updatedetails")], [Protect], Handler("updateDetails")),
     Route(PUT, [Lit("updatepassword")], [Protect], Handler("updatePassword")),
     Route(POST, [Lit("forgotpassword")], [], Handler("forgotPassword")),
     Route(PUT, [Lit("resetpassword"), Param("token")], [], Handler("resetPassword"))])

  /** The routers of the application by name, for following mounts; the reviews router is not
      part of this model. */
  const Routers: map<RouterName, Router> :=
    map[Bootcamps := BootcampsRouter, Courses := CoursesRouter, Users := UsersRouter, Auth := AuthRouter]

  /** A pattern matches a path (given as its segments) segment by segment: a literal only
      itself, a parameter any one segment. */
  predicate Matches(pattern: seq<Segment>, segs: seq<string>)
    decreases |pattern|
  {
    if pattern == [] then segs == []
    else segs != [] && (pattern[0].Lit? ==> pattern[0].text == segs[0]) && Matches(pattern[1..], segs[1..])
  }

  /** Matching, stated without recursion: as many segments as the pattern has, and every
      literal equal to the segment at its position. */
  lemma {:induction false} MatchesSegmentwise(pattern: seq<Segment>, segs: seq<string>)
    ensures Matches(pattern, segs) <==>
      |pattern| == |segs| && forall i :: 0 <= i < |pattern| && pattern[i].Lit? ==> pattern[i].text == segs[i]
    decreases |pattern|
  {
    if pattern != [] && segs != [] {
      MatchesSegmentwise(pattern[1..], segs[1..]);
      assert forall i :: 1 <= i < |pattern| ==> pattern[1..][i - 1] == pattern[i];
      assert forall i :: 1 <= i < |segs| ==> segs[1..][i - 1] == segs[i];
    }
  }

  /** `req.params` as a matched pattern binds it. */
  function Bind(pattern: seq<Segment>, segs: seq<string>): map<string, string>
    decreases |pattern|
  {
    if pattern == [] || segs == [] then map[]
    else (if pattern[0].Param? then map[pattern[0].name := segs[0]] else map[]) + Bind(pattern[1..], segs[1..])
  }

  /** Every parameter bound is a `:name` of the pattern, bound to a segment of the path. */
  lemma {:induction false} BindBindsParams(pattern: seq<Segment>, segs: seq<string>)
    ensures forall k :: k in Bind(pattern, segs) ==> Param(k) in pattern && Bind(pattern, segs)[k] in segs
    decreases |pattern|
  {
    if pattern != [] && segs != [] {
      BindBindsParams(pattern[1..], segs[1..]);
      assert forall x :: x in pattern[1..] ==> x in pattern;
      assert forall x :: x in segs[1..] ==> x in segs;
    }
  }

  /** The first route registered for this verb whose pattern matches. */
  function FirstRoute(routes: seq<Route>, verb: Verb, segs: seq<string>): (r: Option<Route>)
    ensures r.Some? ==> r.value in routes && r.value.verb == verb && Matches(r.value.path, segs)
    ensures r.None? ==> forall x :: x in routes && x.verb == verb ==> !Matches(x.path, segs)
    decreases |routes|
  {
    if routes == [] then None
    else if routes[0].verb == verb && Matches(routes[0].path, segs) then Some(routes[0])
    else FirstRoute(routes[1..], verb, segs)
  }

  /** The route at index i is the one chosen when it matches and no earlier one does. */
  lemma {:induction false} FirstRouteIs(routes: seq<Route>, verb: Verb, segs: seq<string>, i: nat)
    requires i < |routes| && routes[i].verb == verb && Matches(routes[i].path, segs)
    requires forall j :: 0 <= j < i ==> !(routes[j].verb == verb && Matches(routes[j].path, segs))
    ensures FirstRoute(routes, verb, segs) == Some(routes[i])
    decreases i
  {
    if i > 0 {
      assert forall j :: 0 <= j < i - 1 ==> routes[1..][j] == routes[j + 1];
      FirstRouteIs(routes[1..], verb, segs, i - 1);
    }
  }

  /** A mount prefix matches the leading segments of a path. */
  predicate PrefixMatches(prefix: seq<Segment>, segs: seq<string>)
  {
    |prefix| <= |segs| && Matches(prefix, segs[..|prefix|])
  }

  /** The first mounted router whose prefix matches. */
  function FirstMount(mounts: seq<Mount>, segs: seq<string>): (m: Option<Mount>)
    ensures m.Some? ==> m.value in mounts && PrefixMatches(m.value.prefix, segs)
    ensures m.None? ==> forall x :: x in mounts ==> !PrefixMatches(x.prefix, segs)
    decreases |mounts|
  {
    if mounts == [] then None
    else if PrefixMatches(mounts[0].prefix, segs) then Some(mounts[0])
    else FirstMount(mounts[1..], segs)
  }

  /** What one router does with a request: run a chain of its own, or hand the rest of the path
      to a mounted router, with the parameters bound so far. */
  datatype Dispatched =
    | Stages(guards: seq<Guard>, endpoint: Endpoint, params: map<string, string>)
    | Delegate(router: RouterName, rest: seq<string>, params: map<string, string>)

  /** A router sees its parent's parameters only with `mergeParams: true`. */
  function Dispatch(r: Router, verb: Verb, segs: seq<string>, inherited: map<string, string>): (d: Dispatched)
    ensures d.Stages? ==> r.uses <= d.guards
    ensures d.Delegate? ==> |d.rest| <= |segs|
  {
    var base := if r.mergeParams then inherited else map[];
    match FirstMount(r.mounts, segs)
    case Some(m) => Delegate(m.router, segs[|m.prefix|..], base + Bind(m.prefix, segs[..|m.prefix|]))
    case None =>
      match FirstRoute(r.routes, verb, segs)
      case Some(route) => Stages(r.uses + route.guards, route.endpoint, base + Bind(route.path, segs))
      case None => Stages(r.uses, NotFound, base)
  }

  /** The chain and parameters a request to a router ends in, following its mounts; a request
      handed to a router this model does not have is reported as such. */
  datatype Resolved =
    | Chain(guards: seq<Guard>, endpoint: Endpoint, params: map<string, string>)
    | Elsewhere(router: RouterName)

  /** The chain a request to router `r` ends in, following one level of mounts, which is all
      these routers use. The parent's `router.use` guards run before a mounted router's chain. */
  function Resolve(routers: map<RouterName, Router>, r: Router, verb: Verb, segs: seq<string>): (res: Resolved)
    ensures r.mounts == [] ==> res.Chain?
    ensures res.Chain? ==> r.uses <= res.guards
  {
    match Dispatch(r, verb, segs, map[])
    case Stages(g, e, p) => Chain(g, e, p)
    case Delegate(child, rest, p) =>
      if child !in routers then Elsewhere(child)
      else
        match Dispatch(routers[child], verb, rest, p)
        case Stages(g, e, q) => Chain(r.uses + g, e, q)
        case Delegate(grandchild, _, _) => Elsewhere(grandchild)
  }

  /** With no router-level guard, no inherited parameter and no mount matching, a router runs
      the first route that matches, with that route's guards and parameters. */
  lemma DispatchToRoute(r: Router, verb: Verb, segs: seq<string>, route: Route)
    requires !r.mergeParams && r.uses == []
    requires FirstMount(r.mounts, segs) == None && FirstRoute(r.routes, verb, segs) == Some(route)
    ensures Dispatch(r, verb, segs, map[]) == Stages(route.guards, route.endpoint, Bind(route.path, segs))
  {
  }

  /** Without mergeParams, a router hands the rest of the path to the first mount that matches,
      with the mount prefix's parameters. */
  lemma DispatchToMount(r: Router, verb: Verb, segs: seq<string>, m: Mount)
    requires !r.mergeParams && FirstMount(r.mounts, segs) == Some(m)
    ensures Dispatch(r, verb, segs, map[]) == Delegate(m.router, segs[|m.prefix|..], Bind(m.prefix, segs[..|m.prefix|]))
  {
  }

  /** A request the router answers itself resolves to that chain. */
  lemma ResolveOwn(routers: map<RouterName, Router>, r: Router, verb: Verb, segs: seq<string>)
    requires Dispatch(r, verb, segs, map[]).Stages?
    ensures var d := Dispatch(r, verb, segs, map[]); Resolve(routers, r, verb, segs) == Chain(d.guards, d.endpoint, d.params)
  {
  }

  /** How far a request gets: to a handler, with the `req.user` the guards left, or stopped by
      a guard, or to no handler at all. */
  datatype Run = Reached(handler: string, user: ReqUser) | Halted(err: Err) | Unrouted

  /** Runs the guards in order, each one seeing the `req.user` the previous ones left. `protect`
      is the one in middleware/auth.js when `asWritten` holds (a token-less request throws the
      ReferenceError), and the intended one otherwise (it stops with a 401). */
  function RunGuards(guards: seq<Guard>, asWritten: bool, user: ReqUser, authorization: Option<string>,
                     cookie: Option<string>, users: map<Id, User>, lib: Lib): (g: AuthMiddleware.Gate)
    ensures g.Next? && Protect in guards ==>
      var token := AuthMiddleware.ExtractToken(authorization, cookie);
      Truthy(token) && lib.jwtVerify(token.value).Some?
    decreases |guards|
  {
    if guards == [] then AuthMiddleware.Next(user)
    else
      var g := match guards[0]
        case Protect =>
          if asWritten then AuthMiddleware.ProtectAsWritten(authorization, cookie, users, lib)
          else AuthMiddleware.ProtectDecision(authorization, cookie, users, lib)
        case Authorize(roles) => AuthMiddleware.Authorize(roles, user);
      if g.Stop? then g else RunGuards(guards[1..], asWritten, g.user, authorization, cookie, users, lib)
  }

  /** How far the request gets through a chain: the guards, then the endpoint. */
  function RunChain(guards: seq<Guard>, endpoint: Endpoint, asWritten: bool, user: ReqUser,
                    authorization: Option<string>, cookie: Option<string>, users: map<Id, User>, lib: Lib): (run: Run)
    ensures endpoint.NotFound? ==> !run.Reached?
    ensures run.Reached? ==> run.handler == endpoint.name
    ensures run.Reached? ==>
      RunGuards(guards, asWritten, user, authorization, cookie, users, lib) == AuthMiddleware.Next(run.user)
    ensures var g := RunGuards(guards, asWritten, user, authorization, cookie, users, lib);
      g.Stop? ==> run == Halted(g.err)
  {
    match RunGuards(guards, asWritten, user, authorization, cookie, users, lib)
    case Stop(e) => Halted(e)
    case Next(u) => if endpoint.NotFound? then Unrouted else Reached(endpoint.name, u)
  }

  /** Behind `protect, authorize(...roles)` only a request whose token verifies, for a stored
      user whose role is one of the roles, reaches the handler, and that is the user it sees.
      Without a token the request stops at protect: with the intended 401, or, as written, with
      the ReferenceError that the error middleware answers with a 500. */
  lemma {:induction false} GuardsAdmit(roles: seq<string>, endpoint: Endpoint, asWritten: bool, user: ReqUser,
                                       authorization: Option<string>, cookie: Option<string>, users: map<Id, User>, lib: Lib)
    ensures var run := RunChain([Protect, Authorize(roles)], endpoint, asWritten, user, authorization, cookie, users, lib);
      && (!Truthy(AuthMiddleware.ExtractToken(authorization, cookie)) && !asWritten ==>
            run == Halted(AuthMiddleware.NotAuthorized()))
      && (!Truthy(AuthMiddleware.ExtractToken(authorization, cookie)) && asWritten ==>
            run == Halted(ReferenceError("ErrorResponse is not defined")))
      && (run.Reached? ==>
            && Truthy(AuthMiddleware.ExtractToken(authorization, cookie))
            && var id := lib.jwtVerify(AuthMiddleware.ExtractToken(authorization, cookie).value);
            && id.Some? && id.value in users
            && run.user == Loaded(users[id.value]) && run.user.user.role in roles)
  {
    ProtectThenAuthorize(roles, asWritten, user, authorization, cookie, users, lib);
    var g := RunGuards([Protect, Authorize(roles)], asWritten, user, authorization, cookie, users, lib);
    assert RunChain([Protect, Authorize(roles)], endpoint, asWritten, user, authorization, cookie, users, lib) ==
      (if g.Stop? then Halted(g.err) else if endpoint.NotFound? then Unrouted else Reached(endpoint.name, g.user));
  }

  /** `protect, authorize(...roles)` runs protect, and authorize on the user protect left. */
  lemma ProtectThenAuthorize(roles: seq<string>, asWritten: bool, user: ReqUser,
                             authorization: Option<string>, cookie: Option<string>, users: map<Id, User>, lib: Lib)
    ensures var g := if asWritten then AuthMiddleware.ProtectAsWritten(authorization, cookie, users, lib)
                     else AuthMiddleware.ProtectDecision(authorization, cookie, users, lib);
      RunGuards([Protect, Authorize(roles)], asWritten, user, authorization, cookie, users, lib) ==
        (if g.Stop? then g else AuthMiddleware.Authorize(roles, g.user))
  {
    var guards := [Protect, Authorize(roles)];
    var g := if asWritten then AuthMiddleware.ProtectAsWritten(authorization, cookie, users, lib)
             else AuthMiddleware.ProtectDecision(authorization, cookie, users, lib);
    assert guards[0] == Protect && guards[1..] == [Authorize(roles)];
    assert [Authorize(roles)][0] == Authorize(roles) && [Authorize(roles)][1..] == [];
    if g.Next? {
      var h := AuthMiddleware.Authorize(roles, g.user);
      assert RunGuards([Authorize(roles)], asWritten, g.user, authorization, cookie, users, lib) ==
        (if h.Stop? then h else AuthMiddleware.Next(h.user));
    }
  }

  /** A router's answer comes from its own tables: a route registered for the verb behind the
      router's own guards, or its not-found handler behind them, or one of its mounts. */
  lemma DispatchFromTable(r: Router, verb: Verb, segs: seq<string>, inherited: map<string, string>)
    ensures var d := Dispatch(r, verb, segs, inherited);
      && (d.Stages? ==>
            || (d.guards == r.uses && d.endpoint == NotFound)
            || exists route :: route in r.routes && route.verb == verb &&
                               d.guards == r.uses + route.guards && d.endpoint == route.endpoint)
      && (d.Delegate? ==> exists m :: m in r.mounts && m.router == d.router)
  {
  }

  /** The guards of each table: reads are public, writes sit behind `protect, authorize(...)`. */
  lemma BootcampTable()
    ensures forall route :: route in BootcampsRouter.routes ==>
      !route.endpoint.NotFound? && route.guards == (if route.verb == GET then [] else PublisherGuards)
    ensures forall m :: m in BootcampsRouter.mounts ==> m.router == Courses || m.router == Reviews
  {
  }

  /** The bootcamps router mounts the courses router, and the reviews router this model does not have. */
  lemma BootcampMounts()
    ensures forall m :: m in BootcampsRouter.mounts ==> m.router !in Routers || Routers[m.router] == CoursesRouter
  {
    assert Reviews !in Routers && Routers[Courses] == CoursesRouter;
    BootcampTable();
  }

  lemma AuthTable()
    ensures forall route :: route in AuthRouter.routes ==>
      && (route.guards == [] || route.guards == [Protect])
      && (route.guards == [Protect] <==>
            route.endpoint in {Handler("getMe"), Handler("logout"), Handler("updateDetails"), Handler("updatePassword")})
  {
  }

  lemma CourseTable()
    ensures forall route :: route in CoursesRouter.routes ==>
      !route.endpoint.NotFound? && route.guards == (if route.verb == GET then [] else PublisherGuards)
  {
  }

  /** Every request through the bootcamps router, nested course requests included: reads pass
      no guard, and every other verb passes exactly `protect, authorize("publisher", "admin")`
      before reaching a handler. */
  lemma BootcampRoutesGuarded(verb: Verb, segs: seq<string>)
    ensures var r := Resolve(Routers, BootcampsRouter, verb, segs);
      r.Chain? ==> r.guards == (if verb == GET || r.endpoint.NotFound? then [] else PublisherGuards)
  {
    BootcampTable();
    CourseTable();
    BootcampMounts();
    ReadsOpenWritesGuarded(Routers, BootcampsRouter, CoursesRouter, verb, segs);
  }

  /** A router whose routes, and whose mounted children's routes, put reads behind no guard and
      writes behind the publisher guards, resolves every request that way. */
  lemma ReadsOpenWritesGuarded(routers: map<RouterName, Router>, r: Router, c: Router, verb: Verb, segs: seq<string>)
    requires r.uses == [] && c.uses == []
    requires forall route :: route in r.routes ==>
      !route.endpoint.NotFound? && route.guards == (if route.verb == GET then [] else PublisherGuards)
    requires forall route :: route in c.routes ==>
      !route.endpoint.NotFound? && route.guards == (if route.verb == GET then [] else PublisherGuards)
    requires forall m :: m in r.mounts ==> m.router !in routers || routers[m.router] == c
    ensures var res := Resolve(routers, r, verb, segs);
      res.Chain? ==> res.guards == (if verb == GET || res.endpoint.NotFound? then [] else PublisherGuards)
  {
    var d := Dispatch(r, verb, segs, map[]);
    DispatchFromTable(r, verb, segs, map[]);
    if d.Delegate? && d.router in routers {
      DispatchFromTable(c, verb, d.rest, d.params);
    }
  }

  /** The same for the courses router at its own prefix. */
  lemma CourseRoutesGuarded(verb: Verb, segs: seq<string>)
    ensures var r := Resolve(Routers, CoursesRouter, verb, segs);
      r.Chain? && r.guards == (if verb == GET || r.endpoint.NotFound? then [] else PublisherGuards)
  {
    CourseTable();
    DispatchFromTable(CoursesRouter, verb, segs, map[]);
  }

  /** Nested under a bootcamp, the course listing sees `bootcampId` thanks to mergeParams, so
      getCourses lists that bootcamp's courses; at its own prefix it has no such parameter and
      answers with the filtered page. */
  lemma NestedCourseListingSeesBootcamp(b: string)
    ensures Resolve(Routers, BootcampsRouter, GET, [b, "courses"]) == Chain([], Filtered("getCourses"), map["bootcampId" := b])
    ensures Resolve(Routers, CoursesRouter, GET, []) == Chain([], Filtered("getCourses"), map[])
  {
    assert PrefixMatches([Param("bootcampId"), Lit("courses")], [b, "courses"]);
    assert [b, "courses"][2..] == [];
  }

  /** Review paths under a bootcamp go to the reviews router. */
  lemma NestedReviewsDelegated(b: string, rest: seq<string>, verb: Verb)
    ensures Resolve(Routers, BootcampsRouter, verb, [b, "reviews"] + rest) == Elsewhere(Reviews)
  {
    var segs := [b, "reviews"] + rest;
    ReviewsMountFirst(segs);
    DispatchToMount(BootcampsRouter, verb, segs, BootcampsRouter.mounts[1]);
  }

  lemma ReviewsMountFirst(segs: seq<string>)
    requires |segs| >= 2 && segs[1] == "reviews"
    ensures FirstMount(BootcampsRouter.mounts, segs) == Some(BootcampsRouter.mounts[1])
  {
    assert segs[..2][1] == "reviews";
    assert !PrefixMatches(BootcampsRouter.mounts[0].prefix, segs);
    assert PrefixMatches(BootcampsRouter.mounts[1].prefix, segs);
  }

  /** Bootcamp reads by id bind `id`, and the photo upload is a separate route. */
  lemma BootcampByIdBindsId(id: string)
    ensures Resolve(Routers, BootcampsRouter, GET, [id]) == Chain([], Handler("getBootcamp"), map["id" := id])
    ensures Resolve(Routers, BootcampsRouter, PUT, [id, "photo"]) == Chain(PublisherGuards, Handler("uploadPhoto"), map["id" := id])
  {
    BootcampGetByIdDispatch(id);
    ResolveOwn(Routers, BootcampsRouter, GET, [id]);
    BootcampPhotoDispatch(id);
    ResolveOwn(Routers, BootcampsRouter, PUT, [id, "photo"]);
  }

  lemma BootcampGetByIdDispatch(id: string)
    ensures Dispatch(BootcampsRouter, GET, [id], map[]) == Stages([], Handler("getBootcamp"), map["id" := id])
  {
    BootcampNoMount([id]);
    FirstRouteIs(BootcampsRouter.routes, GET, [id], 3);
    assert Bind(BootcampsRouter.routes[3].path, [id]) == map["id" := id];
    DispatchToRoute(BootcampsRouter, GET, [id], BootcampsRouter.routes[3]);
  }

  lemma BootcampPhotoDispatch(id: string)
    ensures Dispatch(BootcampsRouter, PUT, [id, "photo"], map[]) == Stages(PublisherGuards, Handler("uploadPhoto"), map["id" := id])
  {
    BootcampNoMount([id, "photo"]);
    FirstRouteIs(BootcampsRouter.routes, PUT, [id, "photo"], 6);
    assert Bind(BootcampsRouter.routes[6].path, [id, "photo"]) == map["id" := id];
    DispatchToRoute(BootcampsRouter, PUT, [id, "photo"], BootcampsRouter.routes[6]);
  }

  /** A path of at most two segments whose second is not "courses" or "reviews" reaches no mount. */
  lemma BootcampNoMount(segs: seq<string>)
    requires |segs| < 2 || (|segs| == 2 && segs[1] != "courses" && segs[1] != "reviews")
    ensures FirstMount(BootcampsRouter.mounts, segs) == None
  {
    if |segs| == 2 {
      assert segs[..2] == segs;
    }
    assert !PrefixMatches(BootcampsRouter.mounts[0].prefix, segs);
    assert !PrefixMatches(BootcampsRouter.mounts[1].prefix, segs);
  }

  /** Every request to the users router, matched or not, passes `protect, authorize("admin")`
      and no other guard. */
  lemma UsersRouterAdminOnly(verb: Verb, segs: seq<string>)
    ensures Resolve(Routers, UsersRouter, verb, segs).Chain?
    ensures Resolve(Routers, UsersRouter, verb, segs).guards == [Protect, Authorize(AdminOnly)]
  {
    DispatchFromTable(UsersRouter, verb, segs, map[]);
  }

  /** Since the role enum has no "admin", no user stored through a validated save can reach a
      handler of the users router. */
  lemma UsersHandlersUnreachable(verb: Verb, segs: seq<string>, asWritten: bool, user: ReqUser,
                                 authorization: Option<string>, cookie: Option<string>, users: map<Id, User>, lib: Lib)
    requires forall k :: k in users ==> users[k].role in Roles
    ensures var r := Resolve(Routers, UsersRouter, verb, segs);
      !RunChain(r.guards, r.endpoint, asWritten, user, authorization, cookie, users, lib).Reached?
  {
    UsersRouterAdminOnly(verb, segs);
    var r := Resolve(Routers, UsersRouter, verb, segs);
    GuardsAdmit(AdminOnly, r.endpoint, asWritten, user, authorization, cookie, users, lib);
  }

  /** The auth routes that require a token are exactly me, logout, updatedetails and
      updatepassword; none checks a role. */
  lemma AuthRouteGuards(verb: Verb, segs: seq<string>)
    ensures var r := Resolve(Routers, AuthRouter, verb, segs);
      && r.Chain?
      && (r.guards == [] || r.guards == [Protect])
      && (r.guards == [Protect] <==>
            r.endpoint in {Handler("getMe"), Handler("logout"), Handler("updateDetails"), Handler("updatePassword")})
  {
    AuthTable();
    DispatchFromTable(AuthRouter, verb, segs, map[]);
  }

  /** The reset route binds the raw token as `token`. */
  lemma ResetRouteBindsToken(t: string)
    ensures Resolve(Routers, AuthRouter, PUT, ["resetpassword", t]) == Chain([], Handler("resetPassword"), map["token" := t])
  {
    ResetRouteDispatch(t);
    ResolveOwn(Routers, AuthRouter, PUT, ["resetpassword", t]);
  }

  lemma ResetRouteDispatch(t: string)
    ensures Dispatch(AuthRouter, PUT, ["resetpassword", t], map[]) == Stages([], Handler("resetPassword"), map["token" := t])
  {
    ResetRouteFirst(t);
    ResetRouteBind(t);
    DispatchToRoute(AuthRouter, PUT, ["resetpassword", t], AuthRouter.routes[7]);
  }

  lemma ResetRouteFirst(t: string)
    ensures FirstRoute(AuthRouter.routes, PUT, ["resetpassword", t]) == Some(AuthRouter.routes[7])
  {
    FirstRouteIs(AuthRouter.routes, PUT, ["resetpassword", t], 7);
  }

  lemma ResetRouteBind(t: string)
    ensures Bind(AuthRouter.routes[7].path, ["resetpassword", t]) == map["token" := t]
  {
  }
}
