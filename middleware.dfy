/**
 * middleware.go: the stages a request passes through before it reaches a
 * handler. A stage either hands a (possibly changed) request and response
 * on to the next handler, or answers the request itself; `recoverPanic`
 * alone also acts after the next handler has returned.
 */
module Middleware {
  import opened Wrappers
  import opened Http
  import opened Sessions
  import opened Application
  import opened Helpers
  import opened Handlers

  /** The middleware of the program, plus the session manager's `LoadAndSave`. */
  datatype Stage =
    | RecoverPanic | LogRequest | SecureHeaders
    | LoadAndSave | NoSurf | Authenticate
    | RequireAuthentication | RequireUnauthentication

  // ---------------------------------------------------------------- secureHeaders

  const CSP := "Content-Security-Policy"
  const CSP_VALUE := "default-src 'self'; style-src 'self' fonts.googleapis.com; font-src fonts.gstatic.com"
  const REFERRER_POLICY := "Referrer-Policy"
  const REFERRER_POLICY_VALUE := "origin-when-cross-origin"
  const CONTENT_TYPE_OPTIONS := "X-Content-Type-Options"
  const CONTENT_TYPE_OPTIONS_VALUE := "nosniff"
  const FRAME_OPTIONS := "X-Frame-Options"
  const FRAME_OPTIONS_VALUE := "deny"
  const XSS_PROTECTION := "X-XSS-Protection"
  const XSS_PROTECTION_VALUE := "0"

  /** The five security headers carry the values `secureHeaders` gives them. */
  predicate Hardened(r: Response)
  {
    && HeaderGet(r.header, CSP) == CSP_VALUE
    && HeaderGet(r.header, REFERRER_POLICY) == REFERRER_POLICY_VALUE
    && HeaderGet(r.header, CONTENT_TYPE_OPTIONS) == CONTENT_TYPE_OPTIONS_VALUE
    && HeaderGet(r.header, FRAME_OPTIONS) == FRAME_OPTIONS_VALUE
    && HeaderGet(r.header, XSS_PROTECTION) == XSS_PROTECTION_VALUE
  }

  /** Whether `key` is one of the five headers `secureHeaders` sets. */
  predicate IsSecurityHeader(key: string)
  {
    key == CSP || key == REFERRER_POLICY || key == CONTENT_TYPE_OPTIONS || key == FRAME_OPTIONS || key == XSS_PROTECTION
  }

  /**
   * `secureHeaders` before calling next: the five headers are set, and
   * nothing else about the response (other headers, status, body) changes.
   */
  function SecureHeadersOn(r: Response): (r': Response)
    ensures Hardened(r')
    ensures r'.wroteHeader == r.wroteHeader && r'.status == r.status && r'.body == r.body
    ensures forall k :: !IsSecurityHeader(k) ==> (k in r'.header <==> k in r.header)
    ensures forall k :: !IsSecurityHeader(k) && k in r.header ==> r'.header[k] == r.header[k]
    ensures forall k :: IsSecurityHeader(k) ==> k in r'.header && |r'.header[k]| == 1
  {
    r.Set(CSP, CSP_VALUE)
     .Set(REFERRER_POLICY, REFERRER_POLICY_VALUE)
     .Set(CONTENT_TYPE_OPTIONS, CONTENT_TYPE_OPTIONS_VALUE)
     .Set(FRAME_OPTIONS, FRAME_OPTIONS_VALUE)
     .Set(XSS_PROTECTION, XSS_PROTECTION_VALUE)
  }

  /** Applying `secureHeaders` twice is the same as applying it once. */
  lemma SecureHeadersIdempotent(r: Response)
    ensures SecureHeadersOn(SecureHeadersOn(r)) == SecureHeadersOn(r)
  {
    var once := SecureHeadersOn(r);
    var twice := SecureHeadersOn(once);
    forall k | k in once.header
      ensures k in twice.header && twice.header[k] == once.header[k]
    {
      if IsSecurityHeader(k) {
        assert HeaderGet(once.header, k) == HeaderGet(twice.header, k);
      }
    }
    assert twice.header == once.header;
  }

  method SetSecureHeaders(w: ResponseWriter)
    modifies w
    ensures w.Snapshot() == SecureHeadersOn(old(w.Snapshot()))
  {
    w.Set(CSP, CSP_VALUE);
    w.Set(REFERRER_POLICY, REFERRER_POLICY_VALUE);
    w.Set(CONTENT_TYPE_OPTIONS, CONTENT_TYPE_OPTIONS_VALUE);
    w.Set(FRAME_OPTIONS, FRAME_OPTIONS_VALUE);
    w.Set(XSS_PROTECTION, XSS_PROTECTION_VALUE);
  }

  // ---------------------------------------------------------------- decisions

  /** What a stage does before the next handler: pass on, or answer itself. */
  datatype Decision = Continue(req: Request, resp: Response) | Respond(resp: Response)

  /**
   * `authenticate`: a session without a user id passes through unchanged;
   * otherwise the user store is asked whether the id exists: an error is a
   * 500, and only an existing user marks the request authenticated.
   */
  function AuthenticateOn(env: Env, req: Request, resp: Response, sess: Session): (d: Decision)
    ensures d.Respond? <==> sess.GetInt(USER_ID_KEY) != 0 && env.userExists.Failure?
    ensures d.Respond? ==> Answers(resp, d.resp, STATUS_INTERNAL_SERVER_ERROR)
    ensures d.Continue? ==> d.resp == resp && d.req.verb == req.verb && d.req.path == req.path && d.req.params == req.params
    ensures d.Continue? ==>
      (IsAuthenticated(d.req) <==> IsAuthenticated(req) || (sess.GetInt(USER_ID_KEY) != 0 && env.userExists == Success(true)))
  {
    var id := sess.GetInt(USER_ID_KEY);
    if id == 0 then Continue(req, resp)
    else match env.userExists
      case Failure(_) => Respond(ServerErrorOn(resp))
      case Success(exists_) =>
        if exists_ then Continue(req.(authFlag := BoolValue(true)), resp) else Continue(req, resp)
  }

  /** The methods nosurf lets through without a token check. */
  predicate SafeMethod(verb: string)
  {
    verb == GET || verb == HEAD || verb == OPTIONS || verb == "TRACE"
  }

  /** The cookie template `noSurf` installs for the CSRF token cookie. */
  datatype CookieTemplate = CookieTemplate(httpOnly: bool, path: string, secure: bool)

  const CSRF_BASE_COOKIE := CookieTemplate(true, "/", true)

  /** The CSRF cookie is hidden from scripts, sent only over HTTPS, and valid for the whole site. */
  lemma CsrfCookieIsProtected()
    ensures CSRF_BASE_COOKIE.httpOnly && CSRF_BASE_COOKIE.secure && CSRF_BASE_COOKIE.path == "/"
  {
  }

  /**
   * nosurf's check: unsafe methods need a token the library accepts, and a
   * refused request gets nosurf's default failure answer, an empty 400.
   */
  function CsrfCheckOn(env: Env, req: Request, resp: Response): (d: Decision)
    ensures d.Respond? <==> !SafeMethod(req.verb) && !env.csrfAccepted
    ensures d.Respond? ==> Answers(resp, d.resp, STATUS_BAD_REQUEST) && d.resp.body == resp.body + [Text("\n")]
    ensures d.Continue? ==> d == Continue(req, resp)
  {
    assert "" + "\n" == "\n";
    if SafeMethod(req.verb) || env.csrfAccepted then Continue(req, resp)
    else Respond(resp.Error("", STATUS_BAD_REQUEST))
  }

  /** `requireAuthentication`: anonymous requests are sent to the login page; others get `Cache-Control: no-store`. */
  function RequireAuthenticationOn(req: Request, resp: Response): (d: Decision)
    ensures d.Continue? <==> IsAuthenticated(req)
    ensures d.Respond? ==> SeesOther(resp, d.resp, "/user/login")
    ensures d.Respond? ==>
      ("Cache-Control" in d.resp.header <==> "Cache-Control" in resp.header)
      && ("Cache-Control" in resp.header ==> d.resp.header["Cache-Control"] == resp.header["Cache-Control"])
    ensures d.Continue? ==> d == Continue(req, resp.Add("Cache-Control", "no-store"))
    ensures d.Continue? ==>
      d.resp.status == resp.status && d.resp.body == resp.body && d.resp.wroteHeader == resp.wroteHeader
      && d.resp.header.Keys == resp.header.Keys + {"Cache-Control"}
      && d.resp.header["Cache-Control"]
         == (if "Cache-Control" in resp.header then resp.header["Cache-Control"] else []) + ["no-store"]
      && (forall k :: k in resp.header && k != "Cache-Control" ==> d.resp.header[k] == resp.header[k])
  {
    if !IsAuthenticated(req) then Respond(resp.Redirect(req, "/user/login", STATUS_SEE_OTHER))
    else Continue(req, resp.Add("Cache-Control", "no-store"))
  }

  /** `requireUnauthentication`: authenticated requests are sent to the home page. */
  function RequireUnauthenticationOn(req: Request, resp: Response): (d: Decision)
    ensures d.Continue? <==> !IsAuthenticated(req)
    ensures d.Respond? ==> SeesOther(resp, d.resp, "/")
    ensures d.Continue? ==> d == Continue(req, resp)
  {
    if IsAuthenticated(req) then Respond(resp.Redirect(req, "/", STATUS_SEE_OTHER))
    else Continue(req, resp)
  }

  /** Whether a stage can answer a request itself instead of calling next. */
  predicate Guards(st: Stage)
  {
    st.NoSurf? || st.Authenticate? || st.RequireAuthentication? || st.RequireUnauthentication?
  }

  /**
   * A stage's work before next. Logging, session loading and panic
   * recovery leave request and response alone on the way in.
   */
  function Before(env: Env, st: Stage, req: Request, resp: Response, sess: Session): (d: Decision)
    ensures !Guards(st) ==> d.Continue? && d.req == req
    ensures st.SecureHeaders? ==> Hardened(d.resp)
    ensures !Guards(st) && !st.SecureHeaders? ==> d == Continue(req, resp)
    ensures d.Continue? ==> d.resp.wroteHeader == resp.wroteHeader && d.resp.status == resp.status && d.resp.body == resp.body
  {
    match st
    case RecoverPanic => Continue(req, resp)
    case LogRequest => Continue(req, resp)
    case SecureHeaders => Continue(req, SecureHeadersOn(resp))
    case LoadAndSave => Continue(req, resp)
    case NoSurf => CsrfCheckOn(env, req, resp)
    case Authenticate => AuthenticateOn(env, req, resp, sess)
    case RequireAuthentication => RequireAuthenticationOn(req, resp)
    case RequireUnauthentication => RequireUnauthenticationOn(req, resp)
  }

  /**
   * A stage's work after next returned, given whether next panicked:
   * `recoverPanic` turns a panic into `Connection: close` and a 500; every
   * other stage lets the panic continue to unwind.
   */
  function After(st: Stage, resp: Response, panicked: bool): (r: (Response, bool))
    ensures st.RecoverPanic? ==> !r.1
    ensures st.RecoverPanic? && panicked ==>
      HeaderGet(r.0.header, "Connection") == "close" && Answers(resp, r.0, STATUS_INTERNAL_SERVER_ERROR)
      && r.0.body == resp.body + [Text("Internal Server Error\n")]
    ensures !(st.RecoverPanic? && panicked) ==> r == (resp, panicked)
  {
    if st.RecoverPanic? && panicked then (ServerErrorOn(resp.Set("Connection", "close")), false)
    else (resp, panicked)
  }

  // ---------------------------------------------------------------- stage methods

  method CheckCsrf(env: Env, req: Request, w: ResponseWriter) returns (proceed: bool)
    modifies w
    ensures (if proceed then Continue(req, w.Snapshot()) else Respond(w.Snapshot())) == CsrfCheckOn(env, req, old(w.Snapshot()))
  {
    proceed := SafeMethod(req.verb) || env.csrfAccepted;
    if !proceed {
      Error(w, "", STATUS_BAD_REQUEST);
    }
  }

  method AuthenticateRequest(env: Env, req: Request, w: ResponseWriter, s: SessionData) returns (proceed: bool, req': Request)
    modifies w
    ensures (if proceed then Continue(req', w.Snapshot()) else Respond(w.Snapshot())) == AuthenticateOn(env, req, old(w.Snapshot()), s.Snapshot())
  {
    proceed, req' := true, req;
    var id := s.GetInt(USER_ID_KEY);
    if id == 0 {
      return;
    }
    if env.userExists.Failure? {
      ServerError(w);
      proceed := false;
      return;
    }
    if env.userExists.value {
      req' := req.(authFlag := BoolValue(true));
    }
  }

  method RequireAuthenticationGuard(req: Request, w: ResponseWriter) returns (proceed: bool)
    modifies w
    ensures (if proceed then Continue(req, w.Snapshot()) else Respond(w.Snapshot())) == RequireAuthenticationOn(req, old(w.Snapshot()))
  {
    proceed := IsAuthenticated(req);
    if !proceed {
      Redirect(w, req, "/user/login", STATUS_SEE_OTHER);
      return;
    }
    w.Add("Cache-Control", "no-store");
  }

  method RequireUnauthenticationGuard(req: Request, w: ResponseWriter) returns (proceed: bool)
    modifies w
    ensures (if proceed then Continue(req, w.Snapshot()) else Respond(w.Snapshot())) == RequireUnauthenticationOn(req, old(w.Snapshot()))
  {
    proceed := !IsAuthenticated(req);
    if !proceed {
      Redirect(w, req, "/", STATUS_SEE_OTHER);
    }
  }

  /** A stage's work before next, on the response writer. */
  method EnterStage(env: Env, st: Stage, req: Request, w: ResponseWriter, s: SessionData) returns (proceed: bool, req': Request)
    modifies w
    ensures (if proceed then Continue(req', w.Snapshot()) else Respond(w.Snapshot())) == Before(env, st, req, old(w.Snapshot()), s.Snapshot())
  {
    proceed, req' := true, req;
    match st {
      case RecoverPanic =>
      case LogRequest =>
      case SecureHeaders => SetSecureHeaders(w);
      case LoadAndSave =>
      case NoSurf => proceed := CheckCsrf(env, req, w);
      case Authenticate => proceed, req' := AuthenticateRequest(env, req, w, s);
      case RequireAuthentication => proceed := RequireAuthenticationGuard(req, w);
      case RequireUnauthentication => proceed := RequireUnauthenticationGuard(req, w);
    }
  }

  /** A stage's work after next returned, on the response writer. */
  method LeaveStage(st: Stage, w: ResponseWriter, panicked: bool) returns (stillPanicking: bool)
    modifies w
    ensures (w.Snapshot(), stillPanicking) == After(st, old(w.Snapshot()), panicked)
  {
    stillPanicking := panicked;
    if st.RecoverPanic? && panicked {
      w.Set("Connection", "close");
      ServerError(w);
      stillPanicking := false;
    }
  }
}
