/**
 * Panics never reach the server: `recoverPanic`, the outermost stage,
 * turns a handler's panic into a 500 with `Connection: close`. Since the
 * only panic (a misconfigured form decoder) happens before a handler
 * writes anything, that 500 is the status the client sees.
 */
module Recovery {
  import opened Http
  import opened Sessions
  import opened Application
  import opened Helpers
  import opened Handlers
  import opened Middleware
  import opened Routes
  import opened Pipeline

  lemma {:induction false} RunPanicsUnwritten(app: App, env: Env, mux: Mux, c: seq<Stage>, h: Handler, req: Request, resp: Response, sess: Session, trace: seq<Event>)
    requires !resp.wroteHeader
    ensures var o := Run(app, env, mux, c, h, req, resp, sess, trace); o.panicked ==> !o.resp.wroteHeader && o.sess == sess
    decreases Rank(h), |c|, 1
  {
    if c == [] {
      InvokePanicsUnwritten(app, env, mux, h, req, resp, sess, trace);
    } else {
      StepPanicsUnwritten(app, env, mux, c[0], c[1..], h, req, resp, sess, trace);
    }
  }

  lemma {:induction false} StepPanicsUnwritten(app: App, env: Env, mux: Mux, st: Stage, rest: seq<Stage>, h: Handler, req: Request, resp: Response, sess: Session, trace: seq<Event>)
    requires !resp.wroteHeader
    ensures var o := Step(app, env, mux, st, rest, h, req, resp, sess, trace); o.panicked ==> !o.resp.wroteHeader && o.sess == sess
    decreases Rank(h), |rest| + 1, 0
  {
    var d := Before(env, st, req, resp, sess);
    if d.Continue? {
      RunPanicsUnwritten(app, env, mux, rest, h, d.req, d.resp, sess, trace + [Entered(st)]);
    }
  }

  lemma {:induction false} InvokePanicsUnwritten(app: App, env: Env, mux: Mux, h: Handler, req: Request, resp: Response, sess: Session, trace: seq<Event>)
    requires !resp.wroteHeader
    ensures var o := Invoke(app, env, mux, h, req, resp, sess, trace); o.panicked ==> !o.resp.wroteHeader && o.sess == sess
    decreases Rank(h), 0, 0
  {
    match h
    case EndpointHandler(_) =>
    case RouterHandler =>
      match Dispatch(mux, req.verb, req.path)
      case ToRoute(i, params) =>
        var route := mux.entries[i].route;
        RunPanicsUnwritten(app, env, mux, route.chain, EndpointHandler(route.endpoint), req.(params := params), resp, sess, trace);
      case AutoOptions(_) =>
      case NotAllowed(_) =>
      case NoRoute =>
        var e := if mux.notFound.Some? then mux.notFound.value else DefaultNotFound;
        InvokePanicsUnwritten(app, env, mux, EndpointHandler(e), req, resp, sess, trace);
  }

  /** The standard chain, on a response nothing was written to, never panics and answers a panic with a 500. */
  lemma StandardRecoversPanics(app: App, env: Env, mux: Mux, req: Request, resp: Response, sess: Session, trace: seq<Event>)
    requires !resp.wroteHeader
    ensures !Run(app, env, mux, STANDARD, RouterHandler, req, resp, sess, trace).panicked
    ensures
      var inner := Invoke(app, env, mux, RouterHandler, req, SecureHeadersOn(resp), sess, trace + Entries(STANDARD));
      var o := Run(app, env, mux, STANDARD, RouterHandler, req, resp, sess, trace);
      inner.panicked ==>
        && o.resp.Code() == STATUS_INTERNAL_SERVER_ERROR
        && HeaderGet(o.resp.header, "Connection") == "close"
        && o.resp.body == inner.resp.body + [Text("Internal Server Error\n")]
        && o.sess == sess
  {
    var inner := Invoke(app, env, mux, RouterHandler, req, SecureHeadersOn(resp), sess, trace + Entries(STANDARD));
    StandardUnfolds(app, env, mux, req, resp, sess, trace);
    InvokePanicsUnwritten(app, env, mux, RouterHandler, req, SecureHeadersOn(resp), sess, trace + Entries(STANDARD));
    var after := After(RecoverPanic, inner.resp, inner.panicked);
    assert !after.1;
  }

  /**
   * No request ends in a panic; one whose handler panicked is answered
   * with a 500, `Connection: close` and the 500 text, after whatever the
   * response held when the panic began, and its session is unchanged.
   */
  lemma ExchangeRecoversPanics(app: App, env: Env, req: Request, sess: Session)
    ensures !Exchange(app, env, req, sess).panicked
    ensures
      var inner := Invoke(app, env, RoutesMux(app.revision), RouterHandler, req, SecureHeadersOn(BLANK), sess, [] + Entries(STANDARD));
      var o := Exchange(app, env, req, sess);
      inner.panicked ==>
        && o.resp.Code() == STATUS_INTERNAL_SERVER_ERROR
        && HeaderGet(o.resp.header, "Connection") == "close"
        && o.resp.body == inner.resp.body + [Text("Internal Server Error\n")]
        && o.sess == sess
  {
    StandardRecoversPanics(app, env, RoutesMux(app.revision), req, BLANK, sess, []);
  }
}
