/**
 * Where requests go: the order in which a route's stages and handler
 * run, the not-found answer for paths no route registers, the static
 * files that bypass the session, and the redirect after a new snippet
 * that leads to that snippet's page.
 */
module Routing {
  import opened Wrappers
  import opened Models
  import opened Strconv
  import opened Http
  import opened Sessions
  import opened Application
  import opened Helpers
  import opened Handlers
  import opened Middleware
  import opened Routes
  import opened Pipeline

  lemma PrefixAfterEntry(trace: seq<Event>, x: Event, rest: seq<Event>, tail: seq<Event>, inner: seq<Event>)
    requires inner <= trace + [x] + rest + tail
    ensures inner <= trace + ([x] + rest) + tail
  {
    assert trace + [x] + rest + tail == trace + ([x] + rest) + tail;
  }

  /**
   * A chain enters its stages in order, and calls its handler only after
   * entering every stage; a stage that answers by itself ends the trace.
   */
  lemma {:induction false} ChainTrace(app: App, env: Env, mux: Mux, c: seq<Stage>, e: Endpoint, req: Request, resp: Response, sess: Session, trace: seq<Event>)
    ensures Run(app, env, mux, c, EndpointHandler(e), req, resp, sess, trace).trace <= trace + Entries(c) + [Invoked(e)]
    decreases |c|
  {
    if c != [] {
      var entered := trace + [Entered(c[0])];
      UnfoldRun(app, env, mux, c, EndpointHandler(e), req, resp, sess, trace);
      UnfoldStep(app, env, mux, c[0], c[1..], EndpointHandler(e), req, resp, sess, trace);
      assert Entries(c) == [Entered(c[0])] + Entries(c[1..]);
      var d := Before(env, c[0], req, resp, sess);
      if d.Continue? {
        ChainTrace(app, env, mux, c[1..], e, d.req, d.resp, sess, entered);
        PrefixAfterEntry(trace, Entered(c[0]), Entries(c[1..]), [Invoked(e)],
          Run(app, env, mux, c[1..], EndpointHandler(e), d.req, d.resp, sess, entered).trace);
      } else {
        PrefixAfterEntry(trace, Entered(c[0]), Entries(c[1..]), [Invoked(e)], entered);
      }
    }
  }

  /** In a prefix of stage entries followed by a call, the call can only be the last event. */
  lemma CallComesLast(p: seq<Event>, entries: seq<Event>, e: Endpoint)
    requires forall i :: 0 <= i < |entries| ==> entries[i].Entered?
    requires p <= entries + [Invoked(e)] && Invoked(e) in p
    ensures p == entries + [Invoked(e)]
  {
    var k :| 0 <= k < |p| && p[k] == Invoked(e);
    assert (entries + [Invoked(e)])[k] == Invoked(e);
  }

  lemma {:induction false} EntriesAppend(a: seq<Stage>, b: seq<Stage>)
    ensures Entries(a + b) == Entries(a) + Entries(b)
  {
    if a == [] {
      assert a + b == b;
    } else {
      assert (a + b)[1..] == a[1..] + b;
      EntriesAppend(a[1..], b);
    }
  }

  lemma JoinEntries(trace: seq<Event>, a: seq<Stage>, b: seq<Stage>, x: Event)
    ensures trace + Entries(a) + Entries(b) + [x] == trace + Entries(a + b) + [x]
  {
    EntriesAppend(a, b);
  }

  /** The router hands a routed request to the route's chain, with the route's parameters. */
  lemma RouterRuns(app: App, env: Env, mux: Mux, req: Request, resp: Response, sess: Session, trace: seq<Event>)
    requires Dispatch(mux, req.verb, req.path).ToRoute?
    ensures
      var d := Dispatch(mux, req.verb, req.path);
      var route := mux.entries[d.index].route;
      Invoke(app, env, mux, RouterHandler, req, resp, sess, trace)
        == Run(app, env, mux, route.chain, EndpointHandler(route.endpoint), req.(params := d.params), resp, sess, trace)
  {
  }

  /** After `trace`, a prefix of stage entries and a call that holds the call is all of it. */
  lemma CallCompletes(trace: seq<Event>, entries: seq<Event>, e: Endpoint, t: seq<Event>)
    requires forall i :: 0 <= i < |entries| ==> entries[i].Entered?
    requires trace <= t <= trace + entries + [Invoked(e)]
    ensures Invoked(e) in t[|trace|..] ==> t == trace + entries + [Invoked(e)]
  {
    assert t[|trace|..] <= entries + [Invoked(e)];
    if Invoked(e) in t[|trace|..] {
      CallComesLast(t[|trace|..], entries, e);
      assert t == t[..|trace|] + t[|trace|..];
    }
  }

  /**
   * A request the router sends to a route enters the standard stages, then
   * the route's stages in order, and reaches the route's handler only if
   * none of them answered by itself.
   */
  lemma RoutedTrace(app: App, env: Env, mux: Mux, req: Request, resp: Response, sess: Session, trace: seq<Event>)
    requires Dispatch(mux, req.verb, req.path).ToRoute?
    ensures
      var d := Dispatch(mux, req.verb, req.path);
      var route := mux.entries[d.index].route;
      var full := trace + Entries(STANDARD + route.chain) + [Invoked(route.endpoint)];
      var o := Run(app, env, mux, STANDARD, RouterHandler, req, resp, sess, trace);
      && o.trace <= full
      && (Invoked(route.endpoint) in o.trace[|trace|..] ==> o.trace == full)
  {
    var d := Dispatch(mux, req.verb, req.path);
    var route := mux.entries[d.index].route;
    StandardUnfolds(app, env, mux, req, resp, sess, trace);
    RouterRuns(app, env, mux, req, SecureHeadersOn(resp), sess, trace + Entries(STANDARD));
    RouteAfterStandard(app, env, mux, route.chain, route.endpoint, req.(params := d.params), SecureHeadersOn(resp), sess, trace);
  }

  /** A route's chain run after the standard stages extends the trace by its entries and the call, or stops short. */
  lemma RouteAfterStandard(app: App, env: Env, mux: Mux, c: seq<Stage>, e: Endpoint, req: Request, resp: Response, sess: Session, trace: seq<Event>)
    ensures
      var full := trace + Entries(STANDARD + c) + [Invoked(e)];
      var t := Run(app, env, mux, c, EndpointHandler(e), req, resp, sess, trace + Entries(STANDARD)).trace;
      && t <= full
      && (Invoked(e) in t[|trace|..] ==> t == full)
  {
    var start := trace + Entries(STANDARD);
    ChainTrace(app, env, mux, c, e, req, resp, sess, start);
    var t := Run(app, env, mux, c, EndpointHandler(e), req, resp, sess, start).trace;
    JoinEntries(trace, STANDARD, c, Invoked(e));
    CallCompletes(trace, Entries(STANDARD + c), e, t);
  }

  /** The router hands a request no route registers to its NotFound handler. */
  lemma RouterNotFound(app: App, env: Env, mux: Mux, req: Request, resp: Response, sess: Session, trace: seq<Event>)
    requires !Registered(mux.entries, req.path) && mux.notFound == Some(NotFoundPage)
    ensures Invoke(app, env, mux, RouterHandler, req, resp, sess, trace) == Outcome(NotFoundOn(resp), sess, trace + [Invoked(NotFoundPage)], false)
  {
  }

  /** The standard chain around a router that knows no route for the path ends in `notFound`. */
  lemma StandardNotFound(app: App, env: Env, mux: Mux, req: Request, resp: Response, sess: Session, trace: seq<Event>)
    requires !Registered(mux.entries, req.path) && mux.notFound == Some(NotFoundPage)
    ensures
      var o := Run(app, env, mux, STANDARD, RouterHandler, req, resp, sess, trace);
      o == Outcome(NotFoundOn(SecureHeadersOn(resp)), sess, trace + Entries(STANDARD) + [Invoked(NotFoundPage)], false)
  {
    StandardUnfolds(app, env, mux, req, resp, sess, trace);
    RouterNotFound(app, env, mux, req, SecureHeadersOn(resp), sess, trace + Entries(STANDARD));
  }

  /** On a fresh response, that `notFound` is a bare 404 with the "Not Found" text. */
  lemma StandardAnswersNotFound(app: App, env: Env, mux: Mux, req: Request, resp: Response, sess: Session)
    requires !Registered(mux.entries, req.path) && mux.notFound == Some(NotFoundPage)
    requires !resp.wroteHeader && resp.body == []
    ensures
      var o := Run(app, env, mux, STANDARD, RouterHandler, req, resp, sess, []);
      && o.resp.Code() == STATUS_NOT_FOUND
      && o.resp.body == [Text("Not Found\n")]
      && o.sess == sess
      && o.trace == Entries(STANDARD) + [Invoked(NotFoundPage)]
  {
    StandardNotFound(app, env, mux, req, resp, sess, []);
  }

  /**
   * A path no route registers, under any method, goes to the NotFound
   * handler set in `routes()`: a 404 with the "Not Found" text, the
   * session untouched, and no route stage entered.
   */
  lemma UnregisteredIsNotFound(app: App, env: Env, req: Request, sess: Session)
    requires !Registered(RouteTable(app.revision), req.path)
    ensures
      var o := Exchange(app, env, req, sess);
      && o.resp.Code() == STATUS_NOT_FOUND
      && o.resp.body == [Text("Not Found\n")]
      && o.sess == sess
      && o.trace == Entries(STANDARD) + [Invoked(NotFoundPage)]
  {
    StandardAnswersNotFound(app, env, RoutesMux(app.revision), req, BLANK, sess);
  }

  /** Every pattern of the route table is one `routes()` registers. */
  lemma TableRegistrable(rev: Revision)
    ensures forall i :: 0 <= i < |RouteTable(rev)| ==> Registrable(RouteTable(rev)[i].pattern)
  {
    forall i | 0 <= i < |RouteTable(rev)|
      ensures Registrable(RouteTable(rev)[i].pattern)
    {
      KeysIdentifyEntries(rev, i);
    }
  }

  /** A path whose own pattern is not registrable matches no registrable pattern. */
  lemma NoPatternMatches(entries: seq<Entry>, path: string)
    requires forall i :: 0 <= i < |entries| ==> Registrable(entries[i].pattern)
    requires !Registrable(Classify(path))
    ensures !Registered(entries, path)
  {
    forall i | 0 <= i < |entries|
      ensures Match(entries[i].pattern, path).None?
    {
      MatchDeterminesPattern(entries[i].pattern, path);
    }
  }

  /** "/ping" is not one of the paths `routes()` registers. */
  lemma PingIsNotRegistered(rev: Revision)
    ensures !Registered(RouteTable(rev), "/ping")
  {
    TableRegistrable(rev);
    PingUnclassified();
    NoPatternMatches(RouteTable(rev), "/ping");
  }

  lemma PingUnclassified()
    ensures !Registrable(Classify("/ping"))
  {
    assert Classify("/ping") == Exact("/ping");
  }

  lemma PingIsNotFound(app: App, env: Env, verb: string, sess: Session)
    ensures Exchange(app, env, NewRequest(verb, "/ping"), sess).resp.Code() == STATUS_NOT_FOUND
  {
    PingIsNotRegistered(app.revision);
    UnregisteredIsNotFound(app, env, NewRequest(verb, "/ping"), sess);
  }

  /** A request is dispatched to the first registration that serves it, whatever follows. */
  lemma DispatchAt(m: Mux, verb: string, path: string, i: nat)
    requires i < |m.entries| && Serves(m.entries[i], verb, path)
    requires forall j :: 0 <= j < i ==> !Serves(m.entries[j], verb, path)
    ensures Dispatch(m, verb, path) == ToRoute(i, Match(m.entries[i].pattern, path).value)
  {
  }

  lemma StaticMatch(path: string)
    requires |path| >= 8 && path[..8] == "/static/"
    ensures Match(STATIC, path) == Some(map["filepath" := path[7..]])
  {
    assert path[..7] == "/static" && path[7] == '/';
  }

  /** The one registration a GET under `/static/` reaches: the file server, with no stage at all. */
  lemma StaticDispatch(rev: Revision, path: string)
    requires |path| >= 8 && path[..8] == "/static/"
    ensures Dispatch(RoutesMux(rev), GET, path) == ToRoute(0, map["filepath" := path[7..]])
  {
    var m := RoutesMux(rev);
    assert m.entries[0] == StaticRoutes()[0];
    StaticMatch(path);
    DispatchAt(m, GET, path, 0);
  }


  /** A route without stages calls its handler directly, with the route's parameters. */
  lemma RouterServesBare(app: App, env: Env, mux: Mux, req: Request, resp: Response, sess: Session, trace: seq<Event>)
    requires Dispatch(mux, req.verb, req.path).ToRoute?
    requires mux.entries[Dispatch(mux, req.verb, req.path).index].route == Route([], FileServer)
    ensures Invoke(app, env, mux, RouterHandler, req, resp, sess, trace)
      == Outcome(FileServerOn(env, resp), sess, trace + [Invoked(FileServer)], false)
  {
    var params := Dispatch(mux, req.verb, req.path).params;
    assert Run(app, env, mux, [], EndpointHandler(FileServer), req.(params := params), resp, sess, trace)
      == Invoke(app, env, mux, EndpointHandler(FileServer), req.(params := params), resp, sess, trace);
  }

  lemma StandardToFileServer(app: App, env: Env, mux: Mux, req: Request, resp: Response, sess: Session, trace: seq<Event>)
    requires Dispatch(mux, req.verb, req.path).ToRoute?
    requires mux.entries[Dispatch(mux, req.verb, req.path).index].route == Route([], FileServer)
    requires !resp.wroteHeader
    ensures
      var o := Run(app, env, mux, STANDARD, RouterHandler, req, resp, sess, trace);
      && o.sess == sess
      && o.trace == trace + Entries(STANDARD) + [Invoked(FileServer)]
      && o.resp.Code() == (if env.staticFile.FileFound? then STATUS_OK else STATUS_NOT_FOUND)
  {
    StandardUnfolds(app, env, mux, req, resp, sess, trace);
    RouterServesBare(app, env, mux, req, SecureHeadersOn(resp), sess, trace + Entries(STANDARD));
  }

  /**
   * Static files are served outside the session and CSRF stages: the
   * session is left exactly as loaded, no dynamic stage is entered, and
   * the answer is the file or the file server's 404.
   */
  lemma StaticBypassesSession(app: App, env: Env, path: string, sess: Session)
    requires |path| >= 8 && path[..8] == "/static/"
    ensures
      var o := Exchange(app, env, NewRequest(GET, path), sess);
      && o.sess == sess
      && o.trace == Entries(STANDARD) + [Invoked(FileServer)]
      && o.resp.Code() == (if env.staticFile.FileFound? then STATUS_OK else STATUS_NOT_FOUND)
  {
    var mux := RoutesMux(app.revision);
    StaticDispatch(app.revision, path);
    assert mux.entries[0] == StaticRoutes()[0];
    StandardToFileServer(app, env, mux, NewRequest(GET, path), BLANK, sess, []);
    assert [] + Entries(STANDARD) == Entries(STANDARD);
  }

  /**
   * The redirect after creating snippet `id` leads back into the program:
   * a GET of that location is routed to `snippetView`, which reads `id`
   * back from the path.
   */
  lemma CreatedLocationShowsSnippet(rev: Revision, id: int)
    requires InInt64(id) && id >= 1
    ensures Dispatch(RoutesMux(rev), GET, CreatedLocation(id)) == ToRoute(2, map["id" := Itoa(id)])
    ensures ViewedId(NewRequest(GET, CreatedLocation(id)).(params := map["id" := Itoa(id)])) == Some(id)
  {
    var m := RoutesMux(rev);
    var path := CreatedLocation(id);
    ViewServes(rev, id);
    forall j | 0 <= j < 2
      ensures !Serves(m.entries[j], GET, path)
    {
      RouteTableUnambiguous(rev, GET, path, j, 2);
    }
    DispatchAt(m, GET, path, 2);
    ViewedIdRoundTrip(id);
  }

  /** The snippet-view registration serves the location of a created snippet, binding its id. */
  lemma ViewServes(rev: Revision, id: int)
    ensures Serves(RouteTable(rev)[2], GET, CreatedLocation(id))
    ensures Match(RouteTable(rev)[2].pattern, CreatedLocation(id)) == Some(map["id" := Itoa(id)])
  {
    ViewEntry(rev);
    LocationMatchesView(id);
  }

  lemma ViewEntry(rev: Revision)
    ensures RouteTable(rev)[2].verb == GET && RouteTable(rev)[2].pattern == VIEW
  {
    var d := DynamicRoutes(Dynamic(rev));
    SecondGroupAt(StaticRoutes(), d, UnauthenticatedRoutes(Unauthenticated(rev)), AuthenticatedRoutes(Authenticated(rev)), 1);
    assert d[1].verb == GET && d[1].pattern == VIEW;
  }

  lemma SecondGroupAt(s: seq<Entry>, d: seq<Entry>, u: seq<Entry>, a: seq<Entry>, k: nat)
    requires |s| == 1 && k < |d|
    ensures (s + d + u + a)[1 + k] == d[k]
  {
    assert (s + d + u + a)[1 + k] == (s + d)[1 + k];
  }

  lemma LocationMatchesView(id: int)
    ensures Match(VIEW, CreatedLocation(id)) == Some(map["id" := Itoa(id)])
  {
    ItoaIsSegment(id);
    FillThenMatch(VIEW, Itoa(id));
    assert Fill(VIEW, Itoa(id)) == CreatedLocation(id);
  }

  /** `snippetView` reads back the id a created snippet's location carries. */
  lemma ViewedIdRoundTrip(id: int)
    requires InInt64(id) && id >= 1
    ensures ViewedId(NewRequest(GET, CreatedLocation(id)).(params := map["id" := Itoa(id)])) == Some(id)
  {
    ItoaAtoiRoundTrip(id);
  }


}
