/**
 * Two places where routes.go and handlers.go do not do what the program
 * evidently means, each stated for the program as written and for the
 * corrected one (`Revision`).
 *
 * 1. The dynamic chain never runs `authenticate`, so no request carries
 *    the authenticated flag and the pages behind `requireAuthentication`
 *    can be reached by nobody, not even a signed-in user. Corrected, a
 *    signed-in user reaches them and everybody else is still kept out.
 * 2. `snippetCreatePost` does not return after a failed insert, so it
 *    still stores the "created" flash (and calls the redirect, too late to
 *    change the 500). Corrected, the session is left as it was.
 */
module Findings {
  import opened Wrappers
  import opened Models
  import opened Http
  import opened Sessions
  import opened Application
  import opened Helpers
  import opened Handlers
  import opened Middleware
  import opened Routes
  import opened Pipeline
  import opened Routing

  // ---------------------------------------------------------------- finding 1

  /** The handlers `routes()` puts behind `requireAuthentication`. */
  predicate Protected(e: Endpoint)
  {
    e == SnippetCreate || e == SnippetCreatePost || e == UserLogoutPost
  }

  /** Whether `authenticate` would find a live user in the session. */
  predicate SignedIn(env: Env, sess: Session)
  {
    sess.GetInt(USER_ID_KEY) != 0 && env.userExists == Success(true)
  }

  /** A stage other than `authenticate` never sets the authenticated flag. */
  lemma FlagKept(env: Env, st: Stage, req: Request, resp: Response, sess: Session)
    requires st != Authenticate || !SignedIn(env, sess)
    ensures var d := Before(env, st, req, resp, sess); d.Continue? ==> (IsAuthenticated(d.req) <==> IsAuthenticated(req))
  {
  }

  /**
   * A chain with `requireAuthentication` and no way to set the flag in
   * front of it never calls its handler for a request without the flag:
   * its trace stops among the stage entries.
   */
  lemma {:induction false} BlockedChain(app: App, env: Env, mux: Mux, c: seq<Stage>, e: Endpoint, req: Request, resp: Response, sess: Session, trace: seq<Event>)
    requires RequireAuthentication in c && (Authenticate !in c || !SignedIn(env, sess))
    requires !IsAuthenticated(req)
    ensures Run(app, env, mux, c, EndpointHandler(e), req, resp, sess, trace).trace <= trace + Entries(c)
    decreases |c|
  {
    var entered := trace + [Entered(c[0])];
    UnfoldRun(app, env, mux, c, EndpointHandler(e), req, resp, sess, trace);
    UnfoldStep(app, env, mux, c[0], c[1..], EndpointHandler(e), req, resp, sess, trace);
    assert Entries(c) == [Entered(c[0])] + Entries(c[1..]);
    var d := Before(env, c[0], req, resp, sess);
    FlagKept(env, c[0], req, resp, sess);
    if d.Continue? {
      assert c == [c[0]] + c[1..];
      BlockedChain(app, env, mux, c[1..], e, d.req, d.resp, sess, entered);
      PrefixAfterEntry(trace, Entered(c[0]), Entries(c[1..]), [],
        Run(app, env, mux, c[1..], EndpointHandler(e), d.req, d.resp, sess, entered).trace);
      assert trace + [Entered(c[0])] + Entries(c[1..]) + [] == trace + [Entered(c[0])] + Entries(c[1..]);
    } else {
      PrefixAfterEntry(trace, Entered(c[0]), Entries(c[1..]), [], entered);
    }
  }

  /** An event absent from a trace and from what may follow it is absent from any prefix of the two. */
  lemma EventAbsent(trace: seq<Event>, more: seq<Event>, x: Event, t: seq<Event>)
    requires forall i :: 0 <= i < |more| ==> more[i] != x
    requires x !in trace && t <= trace + more
    ensures x !in t
  {
  }

  /** The router's configuration keeps every protected handler behind `requireAuthentication`. */
  predicate Guarded(m: Mux, env: Env, sess: Session)
  {
    && (forall i :: 0 <= i < |m.entries| && Protected(m.entries[i].route.endpoint) ==>
          RequireAuthentication in m.entries[i].route.chain
          && (Authenticate !in m.entries[i].route.chain || !SignedIn(env, sess)))
    && !Protected(if m.notFound.Some? then m.notFound.value else DefaultNotFound)
  }

  lemma AuthenticatedStages(rev: Revision)
    ensures Authenticated(rev).stages
      == if rev == AsWritten then [LoadAndSave, NoSurf, RequireAuthentication]
         else [LoadAndSave, NoSurf, Authenticate, RequireAuthentication]
  {
    var d := Dynamic(rev);
    assert Authenticated(rev).stages == d.stages + [RequireAuthentication];
  }

  /** The groups registered before the authenticated one serve no protected handler. */
  lemma OpenGroups(dynamic: Chain, unauthenticated: Chain)
    ensures !Protected(StaticRoutes()[0].route.endpoint)
    ensures forall k :: 0 <= k < 2 ==> !Protected(DynamicRoutes(dynamic)[k].route.endpoint)
    ensures forall k :: 0 <= k < 4 ==> !Protected(UnauthenticatedRoutes(unauthenticated)[k].route.endpoint)
  {
  }

  /** Joined, the groups keep every protected handler behind the authenticated group's chain. */
  lemma JoinedGuard(s: seq<Entry>, d: seq<Entry>, u: seq<Entry>, a: seq<Entry>, chain: seq<Stage>)
    requires |s| == 1 && |d| == 2 && |u| == 4 && |a| == 3
    requires !Protected(s[0].route.endpoint)
    requires forall k :: 0 <= k < 2 ==> !Protected(d[k].route.endpoint)
    requires forall k :: 0 <= k < 4 ==> !Protected(u[k].route.endpoint)
    requires forall k :: 0 <= k < 3 ==> a[k].route.chain == chain
    ensures var t := s + d + u + a; forall i :: 0 <= i < |t| && Protected(t[i].route.endpoint) ==> t[i].route.chain == chain
  {
    var t := s + d + u + a;
    forall i | 0 <= i < |t|
      ensures Protected(t[i].route.endpoint) ==> t[i].route.chain == chain
    {
      if i < 1 {
        assert t[i] == s[0];
      } else if i < 3 {
        assert t[i] == d[i - 1];
      } else if i < 7 {
        assert t[i] == u[i - 3];
      } else {
        assert t[i] == a[i - 7];
      }
    }
  }

  /** As written, and for a session without a live user also when corrected, the table is guarded. */
  lemma TableGuarded(rev: Revision, env: Env, sess: Session)
    requires rev == AsWritten || !SignedIn(env, sess)
    ensures Guarded(RoutesMux(rev), env, sess)
  {
    AuthenticatedStages(rev);
    OpenGroups(Dynamic(rev), Unauthenticated(rev));
    JoinedGuard(StaticRoutes(), DynamicRoutes(Dynamic(rev)), UnauthenticatedRoutes(Unauthenticated(rev)),
      AuthenticatedRoutes(Authenticated(rev)), Authenticated(rev).stages);
    SharedChainGuards(RoutesMux(rev), Authenticated(rev).stages, env, sess);
  }

  /** When every protected route runs one chain, the routes are guarded exactly when that chain is. */
  lemma SharedChainGuards(m: Mux, chain: seq<Stage>, env: Env, sess: Session)
    requires forall i :: 0 <= i < |m.entries| && Protected(m.entries[i].route.endpoint) ==> m.entries[i].route.chain == chain
    requires RequireAuthentication in chain && (Authenticate !in chain || !SignedIn(env, sess))
    requires m.notFound == Some(NotFoundPage)
    ensures Guarded(m, env, sess)
  {
  }

  /** A route's chain calls no protected handler but its own, and its own only past a way to set the flag. */
  lemma RouteNeverCalls(app: App, env: Env, mux: Mux, route: Route, e: Endpoint, req: Request, resp: Response, sess: Session, trace: seq<Event>)
    requires Protected(route.endpoint) ==>
      RequireAuthentication in route.chain && (Authenticate !in route.chain || !SignedIn(env, sess))
    requires Protected(e) && !IsAuthenticated(req) && Invoked(e) !in trace
    ensures Invoked(e) !in Run(app, env, mux, route.chain, EndpointHandler(route.endpoint), req, resp, sess, trace).trace
  {
    var t := Run(app, env, mux, route.chain, EndpointHandler(route.endpoint), req, resp, sess, trace).trace;
    if Protected(route.endpoint) {
      BlockedChain(app, env, mux, route.chain, route.endpoint, req, resp, sess, trace);
      EventAbsent(trace, Entries(route.chain), Invoked(e), t);
    } else {
      ChainTrace(app, env, mux, route.chain, route.endpoint, req, resp, sess, trace);
      EventAbsent(trace, Entries(route.chain) + [Invoked(route.endpoint)], Invoked(e), t);
    }
  }

  /** The router calls no protected handler for a request without the flag. */
  lemma RouterNeverCalls(app: App, env: Env, mux: Mux, e: Endpoint, req: Request, resp: Response, sess: Session, trace: seq<Event>)
    requires Guarded(mux, env, sess) && Protected(e) && !IsAuthenticated(req) && Invoked(e) !in trace
    ensures Invoked(e) !in Invoke(app, env, mux, RouterHandler, req, resp, sess, trace).trace
  {
    match Dispatch(mux, req.verb, req.path)
    case ToRoute(i, params) =>
      RouterRuns(app, env, mux, req, resp, sess, trace);
      RouteNeverCalls(app, env, mux, mux.entries[i].route, e, req.(params := params), resp, sess, trace);
    case AutoOptions(_) =>
    case NotAllowed(_) =>
    case NoRoute =>
  }

  /** Through the standard chain and the router, a guarded handler is never called for a request without the flag. */
  lemma StandardNeverCalls(app: App, env: Env, mux: Mux, e: Endpoint, req: Request, resp: Response, sess: Session, trace: seq<Event>)
    requires Guarded(mux, env, sess) && Protected(e) && !IsAuthenticated(req) && Invoked(e) !in trace
    ensures Invoked(e) !in Run(app, env, mux, STANDARD, RouterHandler, req, resp, sess, trace).trace
  {
    var start := trace + Entries(STANDARD);
    StandardUnfolds(app, env, mux, req, resp, sess, trace);
    EventAbsent(trace, Entries(STANDARD), Invoked(e), start);
    RouterNeverCalls(app, env, mux, e, req, SecureHeadersOn(resp), sess, start);
  }

  /**
   * As written, a request arriving without the authenticated flag — every
   * request from a client — never reaches a protected handler, whatever
   * its session holds: signed-in users cannot create snippets or log out.
   */
  lemma ProtectedUnreachableAsWritten(app: App, env: Env, req: Request, sess: Session, e: Endpoint)
    requires app.revision == AsWritten && !IsAuthenticated(req) && Protected(e)
    ensures Invoked(e) !in Exchange(app, env, req, sess).trace
  {
    TableGuarded(app.revision, env, sess);
    StandardNeverCalls(app, env, RoutesMux(app.revision), e, req, BLANK, sess, []);
  }

  /** In either revision, a session without a live user never reaches a protected handler. */
  lemma AnonymousKeptOut(app: App, env: Env, req: Request, sess: Session, e: Endpoint)
    requires !SignedIn(env, sess) && !IsAuthenticated(req) && Protected(e)
    ensures Invoked(e) !in Exchange(app, env, req, sess).trace
  {
    TableGuarded(app.revision, env, sess);
    StandardNeverCalls(app, env, RoutesMux(app.revision), e, req, BLANK, sess, []);
  }

  /** The corrected chain around the protected routes lets a signed-in user's safe request through to the handler. */
  lemma SignedInPasses(app: App, env: Env, mux: Mux, e: Endpoint, req: Request, resp: Response, sess: Session, trace: seq<Event>)
    requires SafeMethod(req.verb) && SignedIn(env, sess)
    ensures var c := [LoadAndSave, NoSurf, Authenticate, RequireAuthentication];
      Invoked(e) in Run(app, env, mux, c, EndpointHandler(e), req, resp, sess, trace).trace
  {
    var h := EndpointHandler(e);
    SafePasses(app, env, mux, e, req, resp, sess, trace + [Entered(LoadAndSave)]);
    // `LoadAndSave` passes everything on
    assert Before(env, LoadAndSave, req, resp, sess) == Continue(req, resp);
    assert [LoadAndSave, NoSurf, Authenticate, RequireAuthentication] == [LoadAndSave] + [NoSurf, Authenticate, RequireAuthentication];
    StageCalls(app, env, mux, LoadAndSave, [NoSurf, Authenticate, RequireAuthentication], h, req, resp, sess, trace, Invoked(e));
  }

  /** `noSurf` lets a safe method through to `authenticate`. */
  lemma SafePasses(app: App, env: Env, mux: Mux, e: Endpoint, req: Request, resp: Response, sess: Session, trace: seq<Event>)
    requires SafeMethod(req.verb) && SignedIn(env, sess)
    ensures Invoked(e) in Run(app, env, mux, [NoSurf, Authenticate, RequireAuthentication], EndpointHandler(e), req, resp, sess, trace).trace
  {
    AuthenticatedPasses(app, env, mux, e, req, resp, sess, trace + [Entered(NoSurf)]);
    assert Before(env, NoSurf, req, resp, sess) == Continue(req, resp);
    assert [NoSurf, Authenticate, RequireAuthentication] == [NoSurf] + [Authenticate, RequireAuthentication];
    StageCalls(app, env, mux, NoSurf, [Authenticate, RequireAuthentication], EndpointHandler(e), req, resp, sess, trace, Invoked(e));
  }

  /** `authenticate` sets the flag for a signed-in user, so `requireAuthentication` calls the handler. */
  lemma AuthenticatedPasses(app: App, env: Env, mux: Mux, e: Endpoint, req: Request, resp: Response, sess: Session, trace: seq<Event>)
    requires SignedIn(env, sess)
    ensures Invoked(e) in Run(app, env, mux, [Authenticate, RequireAuthentication], EndpointHandler(e), req, resp, sess, trace).trace
  {
    var d := AuthenticateOn(env, req, resp, sess);
    assert d.Continue? && IsAuthenticated(d.req) && Before(env, Authenticate, req, resp, sess) == d;
    FlagPasses(app, env, mux, e, d.req, d.resp, sess, trace + [Entered(Authenticate)]);
    assert [Authenticate, RequireAuthentication] == [Authenticate] + [RequireAuthentication];
    StageCalls(app, env, mux, Authenticate, [RequireAuthentication], EndpointHandler(e), req, resp, sess, trace, Invoked(e));
  }

  /** `requireAuthentication` calls the handler once the flag is set. */
  lemma FlagPasses(app: App, env: Env, mux: Mux, e: Endpoint, req: Request, resp: Response, sess: Session, trace: seq<Event>)
    requires IsAuthenticated(req)
    ensures Invoked(e) in Run(app, env, mux, [RequireAuthentication], EndpointHandler(e), req, resp, sess, trace).trace
  {
    var d := RequireAuthenticationOn(req, resp);
    var t := trace + [Entered(RequireAuthentication)];
    var inner := Run(app, env, mux, [], EndpointHandler(e), d.req, d.resp, sess, t);
    assert inner.trace == t + [Invoked(e)];
    assert inner.trace[|t|] == Invoked(e);
    assert [RequireAuthentication] == [RequireAuthentication] + [];
    StageCalls(app, env, mux, RequireAuthentication, [], EndpointHandler(e), req, resp, sess, trace, Invoked(e));
  }

  /** An event that the rest of the chain records is recorded when a stage in front of it lets the request through. */
  lemma StageCalls(app: App, env: Env, mux: Mux, st: Stage, rest: seq<Stage>, h: Handler, req: Request, resp: Response, sess: Session, trace: seq<Event>, x: Event)
    requires Before(env, st, req, resp, sess).Continue?
    requires var d := Before(env, st, req, resp, sess);
      x in Run(app, env, mux, rest, h, d.req, d.resp, sess, trace + [Entered(st)]).trace
    ensures x in Run(app, env, mux, [st] + rest, h, req, resp, sess, trace).trace
  {
    assert ([st] + rest)[0] == st && ([st] + rest)[1..] == rest;
    UnfoldRun(app, env, mux, [st] + rest, h, req, resp, sess, trace);
    UnfoldStep(app, env, mux, st, rest, h, req, resp, sess, trace);
  }


  /** The registration a GET of `/snippet/create` reaches. */
  lemma CreateFormDispatch(rev: Revision)
    ensures Dispatch(RoutesMux(rev), GET, "/snippet/create") == ToRoute(7, map[])
  {
    var t := RouteTable(rev);
    assert Serves(t[7], GET, "/snippet/create");
    forall j | 0 <= j < 7
      ensures !Serves(t[j], GET, "/snippet/create")
    {
      RouteTableUnambiguous(rev, GET, "/snippet/create", j, 7);
    }
  }

  lemma StandardReachesCreateForm(app: App, env: Env, mux: Mux, req: Request, resp: Response, sess: Session, trace: seq<Event>)
    requires SafeMethod(req.verb) && SignedIn(env, sess)
    requires Dispatch(mux, req.verb, req.path).ToRoute?
    requires mux.entries[Dispatch(mux, req.verb, req.path).index].route
      == Route([LoadAndSave, NoSurf, Authenticate, RequireAuthentication], SnippetCreate)
    ensures Invoked(SnippetCreate) in Run(app, env, mux, STANDARD, RouterHandler, req, resp, sess, trace).trace
  {
    var d := Dispatch(mux, req.verb, req.path);
    StandardUnfolds(app, env, mux, req, resp, sess, trace);
    RouterRuns(app, env, mux, req, SecureHeadersOn(resp), sess, trace + Entries(STANDARD));
    SignedInPasses(app, env, mux, SnippetCreate, req.(params := d.params), SecureHeadersOn(resp), sess, trace + Entries(STANDARD));
  }

  /** Corrected, a signed-in user who asks for the snippet form gets to its handler. */
  lemma SignedInReachesCreateForm(app: App, env: Env, sess: Session)
    requires app.revision == Corrected && SignedIn(env, sess)
    ensures Invoked(SnippetCreate) in Exchange(app, env, NewRequest(GET, "/snippet/create"), sess).trace
  {
    CreateFormDispatch(app.revision);
    AuthenticatedStages(app.revision);
    assert RoutesMux(app.revision).entries[7].route
      == Route([LoadAndSave, NoSurf, Authenticate, RequireAuthentication], SnippetCreate);
    StandardReachesCreateForm(app, env, RoutesMux(app.revision), NewRequest(GET, "/snippet/create"), BLANK, sess, []);
  }

  // ---------------------------------------------------------------- finding 2

  /** The form submission whose insert fails. */
  predicate InsertFails(env: Env)
  {
    env.postForm.Decoded? && env.redecodes && Validates(env) && env.insertSnippet.Failure?
  }

  /**
   * As written, a failed insert answers 500 but still stores the
   * "created" flash, which the next page shows although no snippet exists.
   */
  lemma FailedInsertFlashesSuccess(app: App, env: Env, req: Request, resp: Response, sess: Session, csrfToken: string)
    requires app.revision == AsWritten && InsertFails(env) && !resp.wroteHeader
    ensures
      var r := SnippetCreatePostOn(app, env, req, resp, sess);
      && r.resp.Code() == STATUS_INTERNAL_SERVER_ERROR
      && NewTemplateDataOn(req, r.sess, csrfToken).0.flash == CREATED_FLASH
  {
  }

  /** Corrected, a failed insert answers 500 and leaves the session, flash included, as it was. */
  lemma FailedInsertKeepsSession(app: App, env: Env, req: Request, resp: Response, sess: Session, csrfToken: string)
    requires app.revision == Corrected && InsertFails(env) && !resp.wroteHeader
    ensures
      var r := SnippetCreatePostOn(app, env, req, resp, sess);
      && r.resp.Code() == STATUS_INTERNAL_SERVER_ERROR
      && r.sess == sess
      && NewTemplateDataOn(req, r.sess, csrfToken).0.flash == sess.PeekString(FLASH_KEY)
  {
  }
}
