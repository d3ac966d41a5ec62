/**
 * The request pipeline as a whole: `standard.Then(router)` from routes.go,
 * where each stage of a chain calls the rest of the chain as its next
 * handler, and the router calls a route's chain ending in its handler.
 *
 * `Run` is the pipeline on values; `ServeChain` and its companions run it
 * on a response writer and the session data, and are proved to end in the
 * state `Run` computes. The trace records, for the proofs, which stages
 * were entered and which handler was called; it is ghost in the methods.
 */
module Pipeline {
  import opened Wrappers
  import opened Http
  import opened Sessions
  import opened Application
  import opened Helpers
  import opened Handlers
  import opened Middleware
  import opened Routes

  datatype Event = Entered(stage: Stage) | Invoked(endpoint: Endpoint)

  /** The handler at the end of a chain: the router, or one endpoint. */
  datatype Handler = RouterHandler | EndpointHandler(e: Endpoint)

  /** Everything a request leaves behind. */
  datatype Outcome = Outcome(resp: Response, sess: Session, trace: seq<Event>, panicked: bool)

  /** The router calls chains that end in endpoints, so it ranks above them. */
  function Rank(h: Handler): nat
  {
    if h.RouterHandler? then 1 else 0
  }

  /** Running a chain of stages in front of a handler. */
  function Run(app: App, env: Env, mux: Mux, c: seq<Stage>, h: Handler, req: Request, resp: Response, sess: Session, trace: seq<Event>): (o: Outcome)
    ensures |trace| <= |o.trace| && o.trace[..|trace|] == trace
    decreases Rank(h), |c|, 1
  {
    if c == [] then Invoke(app, env, mux, h, req, resp, sess, trace)
    else Step(app, env, mux, c[0], c[1..], h, req, resp, sess, trace)
  }

  /** One stage: its work before next, next (the rest of the chain), then its work after next. */
  function Step(app: App, env: Env, mux: Mux, st: Stage, rest: seq<Stage>, h: Handler, req: Request, resp: Response, sess: Session, trace: seq<Event>): (o: Outcome)
    ensures |trace| < |o.trace| && o.trace[..|trace| + 1] == trace + [Entered(st)]
    decreases Rank(h), |rest| + 1, 0
  {
    var entered := trace + [Entered(st)];
    match Before(env, st, req, resp, sess)
    case Respond(resp') => Outcome(resp', sess, entered, false)
    case Continue(req', resp') =>
      var o := Run(app, env, mux, rest, h, req', resp', sess, entered);
      assert o.trace[..|entered|] == entered;
      var (resp'', panicked) := After(st, o.resp, o.panicked);
      o.(resp := resp'', panicked := panicked)
  }

  /** Calling the handler at the end of a chain. */
  function Invoke(app: App, env: Env, mux: Mux, h: Handler, req: Request, resp: Response, sess: Session, trace: seq<Event>): (o: Outcome)
    ensures |trace| <= |o.trace| && o.trace[..|trace|] == trace
    ensures h.EndpointHandler? ==> o.trace == trace + [Invoked(h.e)]
    decreases Rank(h), 0, 0
  {
    match h
    case EndpointHandler(e) =>
      var served := Handle(app, env, e, req, resp, sess);
      Outcome(served.resp, served.sess, trace + [Invoked(e)], served.panicked)
    case RouterHandler =>
      match Dispatch(mux, req.verb, req.path)
      case ToRoute(i, params) =>
        var route := mux.entries[i].route;
        Run(app, env, mux, route.chain, EndpointHandler(route.endpoint), req.(params := params), resp, sess, trace)
      case AutoOptions(allow) => Outcome(resp.Set("Allow", allow), sess, trace, false)
      case NotAllowed(allow) =>
        Outcome(resp.Set("Allow", allow).Error(StatusText(STATUS_METHOD_NOT_ALLOWED), STATUS_METHOD_NOT_ALLOWED), sess, trace, false)
      case NoRoute =>
        var e := if mux.notFound.Some? then mux.notFound.value else DefaultNotFound;
        Invoke(app, env, mux, EndpointHandler(e), req, resp, sess, trace)
  }

  /** A non-empty chain runs its first stage with the rest as next. */
  lemma UnfoldRun(app: App, env: Env, mux: Mux, c: seq<Stage>, h: Handler, req: Request, resp: Response, sess: Session, trace: seq<Event>)
    requires c != []
    ensures Run(app, env, mux, c, h, req, resp, sess, trace) == Step(app, env, mux, c[0], c[1..], h, req, resp, sess, trace)
  {
  }

  /** A stage either answers by itself, or runs the rest of the chain and then its after-work. */
  lemma UnfoldStep(app: App, env: Env, mux: Mux, st: Stage, rest: seq<Stage>, h: Handler, req: Request, resp: Response, sess: Session, trace: seq<Event>)
    ensures
      var o := Step(app, env, mux, st, rest, h, req, resp, sess, trace);
      var d := Before(env, st, req, resp, sess);
      && (d.Respond? ==> o == Outcome(d.resp, sess, trace + [Entered(st)], false))
      && (d.Continue? ==>
            var inner := Run(app, env, mux, rest, h, d.req, d.resp, sess, trace + [Entered(st)]);
            o.trace == inner.trace && o.sess == inner.sess && (o.resp, o.panicked) == After(st, inner.resp, inner.panicked))
  {
  }

  /** `logRequest` and `LoadAndSave` hand request and response on unchanged and add nothing afterwards. */
  lemma PassThrough(app: App, env: Env, mux: Mux, st: Stage, rest: seq<Stage>, h: Handler, req: Request, resp: Response, sess: Session, trace: seq<Event>)
    requires st.LogRequest? || st.LoadAndSave?
    ensures Step(app, env, mux, st, rest, h, req, resp, sess, trace) == Run(app, env, mux, rest, h, req, resp, sess, trace + [Entered(st)])
  {
  }

  /** The events of entering each stage of a chain, in order. */
  function Entries(c: seq<Stage>): (t: seq<Event>)
    ensures |t| == |c| && forall i :: 0 <= i < |c| ==> t[i] == Entered(c[i])
  {
    if c == [] then [] else [Entered(c[0])] + Entries(c[1..])
  }

  /**
   * The standard chain never answers by itself: the router is called with
   * the hardened response after all three stages were entered, and only
   * `recoverPanic`'s after-work follows.
   */
  lemma StandardUnfolds(app: App, env: Env, mux: Mux, req: Request, resp: Response, sess: Session, trace: seq<Event>)
    ensures
      var o := Run(app, env, mux, STANDARD, RouterHandler, req, resp, sess, trace);
      var inner := Invoke(app, env, mux, RouterHandler, req, SecureHeadersOn(resp), sess, trace + Entries(STANDARD));
      o.trace == inner.trace && o.sess == inner.sess && (o.resp, o.panicked) == After(RecoverPanic, inner.resp, inner.panicked)
  {
    var t1 := trace + [Entered(RecoverPanic)];
    var t2 := t1 + [Entered(LogRequest)];
    var t3 := t2 + [Entered(SecureHeaders)];
    assert Entries(STANDARD) == [Entered(RecoverPanic), Entered(LogRequest), Entered(SecureHeaders)];
    assert t3 == trace + Entries(STANDARD);
    assert [SecureHeaders][1..] == [];
    UnfoldRun(app, env, mux, [SecureHeaders], RouterHandler, req, resp, sess, t2);
    PassThrough(app, env, mux, LogRequest, [SecureHeaders], RouterHandler, req, resp, sess, t1);
    assert [LogRequest, SecureHeaders][1..] == [SecureHeaders];
    UnfoldRun(app, env, mux, [LogRequest, SecureHeaders], RouterHandler, req, resp, sess, t1);
    assert STANDARD[1..] == [LogRequest, SecureHeaders];
    UnfoldRun(app, env, mux, STANDARD, RouterHandler, req, resp, sess, trace);
  }

  /** A panic never escapes the standard chain: `recoverPanic` is its outermost stage. */
  lemma StandardNeverPanics(app: App, env: Env, mux: Mux, req: Request, resp: Response, sess: Session, trace: seq<Event>)
    ensures !Run(app, env, mux, STANDARD, RouterHandler, req, resp, sess, trace).panicked
  {
    StandardUnfolds(app, env, mux, req, resp, sess, trace);
  }

  /** One request through `routes()`'s handler, from a blank response and the loaded session. */
  function Exchange(app: App, env: Env, req: Request, sess: Session): (o: Outcome)
    ensures !o.panicked
  {
    StandardNeverPanics(app, env, RoutesMux(app.revision), req, BLANK, sess, []);
    Run(app, env, RoutesMux(app.revision), STANDARD, RouterHandler, req, BLANK, sess, [])
  }

  // ---------------------------------------------------------------- on objects

  method ServeChain(app: App, env: Env, router: Router, c: seq<Stage>, h: Handler, req: Request,
                    w: ResponseWriter, s: SessionData, ghost trace: seq<Event>)
    returns (panicked: bool, ghost trace': seq<Event>)
    modifies w, s
    ensures Outcome(w.Snapshot(), s.Snapshot(), trace', panicked)
         == Run(app, env, router.Snapshot(), c, h, req, old(w.Snapshot()), old(s.Snapshot()), trace)
    decreases Rank(h), |c|, 1
  {
    if c == [] {
      panicked, trace' := ServeHandler(app, env, router, h, req, w, s, trace);
    } else {
      panicked, trace' := ServeStage(app, env, router, c[0], c[1..], h, req, w, s, trace);
    }
  }

  /** A middleware closure: `func(w, req) { ...; next.ServeHTTP(w, req); ... }`. */
  method ServeStage(app: App, env: Env, router: Router, st: Stage, rest: seq<Stage>, h: Handler, req: Request,
                    w: ResponseWriter, s: SessionData, ghost trace: seq<Event>)
    returns (panicked: bool, ghost trace': seq<Event>)
    modifies w, s
    ensures Outcome(w.Snapshot(), s.Snapshot(), trace', panicked)
         == Step(app, env, router.Snapshot(), st, rest, h, req, old(w.Snapshot()), old(s.Snapshot()), trace)
    decreases Rank(h), |rest| + 1, 0
  {
    trace' := trace + [Entered(st)];
    var proceed, req' := EnterStage(env, st, req, w, s);
    if !proceed {
      return false, trace';
    }
    panicked, trace' := ServeChain(app, env, router, rest, h, req', w, s, trace');
    panicked := LeaveStage(st, w, panicked);
  }

  method ServeHandler(app: App, env: Env, router: Router, h: Handler, req: Request,
                      w: ResponseWriter, s: SessionData, ghost trace: seq<Event>)
    returns (panicked: bool, ghost trace': seq<Event>)
    modifies w, s
    ensures Outcome(w.Snapshot(), s.Snapshot(), trace', panicked)
         == Invoke(app, env, router.Snapshot(), h, req, old(w.Snapshot()), old(s.Snapshot()), trace)
    decreases Rank(h), 0, 0
  {
    if h.EndpointHandler? {
      panicked := ServeEndpoint(app, env, h.e, req, w, s);
      trace' := trace + [Invoked(h.e)];
      return;
    }
    panicked, trace' := false, trace;
    match Dispatch(router.Snapshot(), req.verb, req.path) {
      case ToRoute(i, params) =>
        var route := router.entries[i].route;
        panicked, trace' := ServeChain(app, env, router, route.chain, EndpointHandler(route.endpoint), req.(params := params), w, s, trace);
      case AutoOptions(allow) =>
        w.Set("Allow", allow);
      case NotAllowed(allow) =>
        w.Set("Allow", allow);
        Error(w, StatusText(STATUS_METHOD_NOT_ALLOWED), STATUS_METHOD_NOT_ALLOWED);
      case NoRoute =>
        var e := if router.notFound.Some? then router.notFound.value else DefaultNotFound;
        panicked, trace' := ServeHandler(app, env, router, EndpointHandler(e), req, w, s, trace);
    }
  }

  /** The standard chain in front of `router`, on a fresh writer and the loaded session. */
  method ServeStandard(app: App, env: Env, router: Router, req: Request, sess: Session)
    returns (resp: Response, sess': Session, ghost trace: seq<Event>)
    ensures Outcome(resp, sess', trace, false) == Run(app, env, router.Snapshot(), STANDARD, RouterHandler, req, BLANK, sess, [])
  {
    var w := new ResponseWriter();
    var s := new SessionData(sess);
    var panicked;
    panicked, trace := ServeChain(app, env, router, STANDARD, RouterHandler, req, w, s, []);
    StandardNeverPanics(app, env, router.Snapshot(), req, BLANK, sess, []);
    resp, sess' := w.Snapshot(), s.Snapshot();
  }

  /**
   * One request served by the handler `routes()` returns: build the
   * router, then run the standard chain around it on a fresh response
   * writer and the loaded session.
   */
  method ServeHTTP(app: App, env: Env, req: Request, sess: Session) returns (resp: Response, sess': Session, ghost trace: seq<Event>)
    ensures Outcome(resp, sess', trace, false) == Exchange(app, env, req, sess)
  {
    var router := NewRoutes(app);
    resp, sess', trace := ServeStandard(app, env, router, req, sess);
  }
}
