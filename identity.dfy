/**
 * Who the session belongs to — its token and the authenticated user id —
 * changes only in `userLoginPost` and `userLogoutPost`, the two handlers
 * that renew the token. Every other handler, every middleware stage and
 * the router leave both alone (flash messages come and go, but they are
 * not part of the identity).
 */
module Identity {
  import opened Http
  import opened Sessions
  import opened Application
  import opened Handlers
  import opened Middleware
  import opened Routes
  import opened Pipeline

  /** Storing or taking the flash message leaves token and user id as they were. */
  lemma FlashKeepsIdentity(sess: Session, v: Value)
    ensures SameIdentity(sess.Put(FLASH_KEY, v), sess)
    ensures SameIdentity(sess.Remove(FLASH_KEY), sess)
  {
  }

  /** The handlers other than login and logout never touch the identity. */
  lemma HandleKeepsIdentity(app: App, env: Env, e: Endpoint, req: Request, resp: Response, sess: Session)
    requires e != UserLoginPost && e != UserLogoutPost
    ensures SameIdentity(Handle(app, env, e, req, resp, sess).sess, sess)
  {
    FlashKeepsIdentity(sess, StringValue(SIGNUP_FLASH));
    FlashKeepsIdentity(sess, StringValue(CREATED_FLASH));
  }

  /** Whether a trace calls one of the two handlers that renew the token. */
  predicate SignsInOrOut(t: seq<Event>)
  {
    Invoked(UserLoginPost) in t || Invoked(UserLogoutPost) in t
  }

  lemma {:induction false} RunKeepsIdentity(app: App, env: Env, mux: Mux, c: seq<Stage>, h: Handler, req: Request, resp: Response, sess: Session, trace: seq<Event>)
    ensures var o := Run(app, env, mux, c, h, req, resp, sess, trace); SameIdentity(o.sess, sess) || SignsInOrOut(o.trace)
    decreases Rank(h), |c|, 1
  {
    if c == [] {
      InvokeKeepsIdentity(app, env, mux, h, req, resp, sess, trace);
    } else {
      StepKeepsIdentity(app, env, mux, c[0], c[1..], h, req, resp, sess, trace);
    }
  }

  lemma {:induction false} StepKeepsIdentity(app: App, env: Env, mux: Mux, st: Stage, rest: seq<Stage>, h: Handler, req: Request, resp: Response, sess: Session, trace: seq<Event>)
    ensures var o := Step(app, env, mux, st, rest, h, req, resp, sess, trace); SameIdentity(o.sess, sess) || SignsInOrOut(o.trace)
    decreases Rank(h), |rest| + 1, 0
  {
    var d := Before(env, st, req, resp, sess);
    if d.Continue? {
      RunKeepsIdentity(app, env, mux, rest, h, d.req, d.resp, sess, trace + [Entered(st)]);
    }
  }

  lemma {:induction false} InvokeKeepsIdentity(app: App, env: Env, mux: Mux, h: Handler, req: Request, resp: Response, sess: Session, trace: seq<Event>)
    ensures var o := Invoke(app, env, mux, h, req, resp, sess, trace); SameIdentity(o.sess, sess) || SignsInOrOut(o.trace)
    decreases Rank(h), 0, 0
  {
    match h
    case EndpointHandler(e) =>
      var t := trace + [Invoked(e)];
      assert t[|trace|] == Invoked(e);
      if e != UserLoginPost && e != UserLogoutPost {
        HandleKeepsIdentity(app, env, e, req, resp, sess);
      }
    case RouterHandler =>
      match Dispatch(mux, req.verb, req.path)
      case ToRoute(i, params) =>
        var route := mux.entries[i].route;
        RunKeepsIdentity(app, env, mux, route.chain, EndpointHandler(route.endpoint), req.(params := params), resp, sess, trace);
      case AutoOptions(_) =>
      case NotAllowed(_) =>
      case NoRoute =>
        var e := if mux.notFound.Some? then mux.notFound.value else DefaultNotFound;
        InvokeKeepsIdentity(app, env, mux, EndpointHandler(e), req, resp, sess, trace);
  }

  /**
   * A request that reaches neither `userLoginPost` nor `userLogoutPost`
   * hands the session back with the same token and the same user id.
   */
  lemma ExchangeKeepsIdentity(app: App, env: Env, req: Request, sess: Session)
    ensures var o := Exchange(app, env, req, sess); SameIdentity(o.sess, sess) || SignsInOrOut(o.trace)
  {
    RunKeepsIdentity(app, env, RoutesMux(app.revision), STANDARD, RouterHandler, req, BLANK, sess, []);
  }
}
