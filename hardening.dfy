/**
 * The security headers reach every client: whatever route a request
 * takes and however it ends (a handler's page, a guard's redirect, an
 * error, a recovered panic), the response carries the five headers with
 * the values `secureHeaders` sets.
 */
module Hardening {
  import opened Wrappers
  import opened Models
  import opened Templates
  import opened Http
  import opened Sessions
  import opened Application
  import opened Helpers
  import opened Handlers
  import opened Middleware
  import opened Routes
  import opened Pipeline

  lemma ErrorKeepsHardened(r: Response, text: string, code: int)
    requires Hardened(r)
    ensures Hardened(r.Error(text, code))
  {
  }

  lemma RedirectKeepsHardened(r: Response, req: Request, url: string, code: int)
    requires Hardened(r)
    ensures Hardened(r.Redirect(req, url, code))
  {
  }

  lemma RenderKeepsHardened(app: App, execution: Execution, r: Response, status: int, page: string, data: TemplateData)
    requires Hardened(r)
    ensures Hardened(RenderOn(app, execution, r, status, page, data))
  {
  }

  lemma RenderFormKeepsHardened(app: App, env: Env, req: Request, resp: Response, sess: Session, status: int, page: string, form: Form)
    requires Hardened(resp)
    ensures Hardened(RenderFormOn(app, env, req, resp, sess, status, page, form).resp)
  {
  }

  lemma HomeKeepsHardened(app: App, env: Env, req: Request, resp: Response, sess: Session)
    requires Hardened(resp)
    ensures Hardened(HomeOn(app, env, req, resp, sess).resp)
  {
  }

  lemma SignupPostKeepsHardened(app: App, env: Env, req: Request, resp: Response, sess: Session)
    requires Hardened(resp)
    ensures Hardened(UserSignupPostOn(app, env, req, resp, sess).resp)
  {
    match env.postForm
    case Decoded(f) =>
      if env.fieldErrors != map[] {
        RenderFormKeepsHardened(app, env, req, resp, sess, STATUS_UNPROCESSABLE_ENTITY, "signup.gohtml",
          UserSignupForm(f.name, f.email, f.password, Validator(env.fieldErrors, [])));
      } else if env.insertUser == Some(ErrDuplicateEmail) {
        var v := Validator(env.fieldErrors, []).AddFieldError("email", DUPLICATE_EMAIL);
        RenderFormKeepsHardened(app, env, req, resp, sess, STATUS_UNPROCESSABLE_ENTITY, "signup.gohtml",
          UserSignupForm(f.name, f.email, f.password, v));
      } else if env.insertUser.Some? {
        ErrorKeepsHardened(resp, StatusText(STATUS_INTERNAL_SERVER_ERROR), STATUS_INTERNAL_SERVER_ERROR);
      } else {
        RedirectKeepsHardened(resp, req, "/user/login", STATUS_SEE_OTHER);
      }
    case _ =>
  }

  lemma LoginPostKeepsHardened(app: App, env: Env, req: Request, resp: Response, sess: Session)
    requires Hardened(resp)
    ensures Hardened(UserLoginPostOn(app, env, req, resp, sess).resp)
  {
    match env.postForm
    case Decoded(f) =>
      if env.fieldErrors != map[] {
        RenderFormKeepsHardened(app, env, req, resp, sess, STATUS_UNPROCESSABLE_ENTITY, "login.gohtml",
          UserLoginForm(f.email, f.password, Validator(env.fieldErrors, [])));
      } else if env.authenticate == Failure(ErrInvalidCredentials) {
        var v := Validator(env.fieldErrors, []).AddNonFieldError(BAD_CREDENTIALS);
        RenderFormKeepsHardened(app, env, req, resp, sess, STATUS_UNPROCESSABLE_ENTITY, "login.gohtml",
          UserLoginForm(f.email, f.password, v));
      } else if env.authenticate.Failure? || env.renewDraw.None? {
        ErrorKeepsHardened(resp, StatusText(STATUS_INTERNAL_SERVER_ERROR), STATUS_INTERNAL_SERVER_ERROR);
      } else {
        RedirectKeepsHardened(resp, req, "/snippet/create", STATUS_SEE_OTHER);
      }
    case _ =>
  }

  lemma LogoutPostKeepsHardened(env: Env, req: Request, resp: Response, sess: Session)
    requires Hardened(resp)
    ensures Hardened(UserLogoutPostOn(env, req, resp, sess).resp)
  {
    if env.renewDraw.None? {
      ErrorKeepsHardened(resp, StatusText(STATUS_INTERNAL_SERVER_ERROR), STATUS_INTERNAL_SERVER_ERROR);
    } else {
      RedirectKeepsHardened(resp, req, "/", STATUS_SEE_OTHER);
    }
  }

  lemma ViewKeepsHardened(app: App, env: Env, req: Request, resp: Response, sess: Session)
    requires Hardened(resp)
    ensures Hardened(SnippetViewOn(app, env, req, resp, sess).resp)
  {
    ErrorKeepsHardened(resp, StatusText(STATUS_NOT_FOUND), STATUS_NOT_FOUND);
    ErrorKeepsHardened(resp, StatusText(STATUS_INTERNAL_SERVER_ERROR), STATUS_INTERNAL_SERVER_ERROR);
    if env.get.Success? {
      var (data, _) := NewTemplateDataOn(req, sess, env.csrfToken);
      RenderKeepsHardened(app, env.execution, resp, STATUS_OK, "view.gohtml", data.(snippet := Some(env.get.value)));
    }
  }

  lemma CreatePostKeepsHardened(app: App, env: Env, req: Request, resp: Response, sess: Session)
    requires Hardened(resp)
    ensures Hardened(SnippetCreatePostOn(app, env, req, resp, sess).resp)
  {
    match env.postForm
    case Decoded(f) =>
      if env.redecodes && env.fieldErrors != map[] {
        RenderFormKeepsHardened(app, env, req, resp, sess, STATUS_UNPROCESSABLE_ENTITY, "create.gohtml",
          SnippetCreateForm(f.title, f.content, f.expires, Validator(env.fieldErrors, [])));
      } else if env.redecodes {
        var id: int := if env.insertSnippet.Success? then env.insertSnippet.value else 0;
        var afterInsert := if env.insertSnippet.Failure? then ServerErrorOn(resp) else resp;
        ErrorKeepsHardened(resp, StatusText(STATUS_INTERNAL_SERVER_ERROR), STATUS_INTERNAL_SERVER_ERROR);
        RedirectKeepsHardened(afterInsert, req, CreatedLocation(id), STATUS_SEE_OTHER);
      }
    case _ =>
  }

  lemma FileServerKeepsHardened(env: Env, resp: Response)
    requires Hardened(resp)
    ensures Hardened(FileServerOn(env, resp))
  {
  }

  /** No handler removes or changes a security header. */
  lemma HandleKeepsHardened(app: App, env: Env, e: Endpoint, req: Request, resp: Response, sess: Session)
    requires Hardened(resp)
    ensures Hardened(Handle(app, env, e, req, resp, sess).resp)
  {
    match e
    case Home => HomeKeepsHardened(app, env, req, resp, sess);
    case SnippetView => ViewKeepsHardened(app, env, req, resp, sess);
    case SnippetCreate => RenderFormKeepsHardened(app, env, req, resp, sess, STATUS_OK, "create.gohtml", EMPTY_SNIPPET_FORM);
    case SnippetCreatePost => CreatePostKeepsHardened(app, env, req, resp, sess);
    case UserSignup => RenderFormKeepsHardened(app, env, req, resp, sess, STATUS_OK, "signup.gohtml", EMPTY_SIGNUP_FORM);
    case UserSignupPost => SignupPostKeepsHardened(app, env, req, resp, sess);
    case UserLogin => RenderFormKeepsHardened(app, env, req, resp, sess, STATUS_OK, "login.gohtml", EMPTY_LOGIN_FORM);
    case UserLoginPost => LoginPostKeepsHardened(app, env, req, resp, sess);
    case UserLogoutPost => LogoutPostKeepsHardened(env, req, resp, sess);
    case FileServer => FileServerKeepsHardened(env, resp);
    case NotFoundPage => ErrorKeepsHardened(resp, StatusText(STATUS_NOT_FOUND), STATUS_NOT_FOUND);
    case DefaultNotFound => ErrorKeepsHardened(resp, "404 page not found", STATUS_NOT_FOUND);
  }

  /** A stage never takes a security header away, before next or after it. */
  lemma StageKeepsHardened(env: Env, st: Stage, req: Request, resp: Response, sess: Session, panicked: bool)
    requires Hardened(resp)
    ensures Hardened(Before(env, st, req, resp, sess).resp)
    ensures Hardened(After(st, resp, panicked).0)
  {
    BeforeKeepsHardened(env, st, req, resp, sess);
    AfterKeepsHardened(st, resp, panicked);
  }

  lemma BeforeKeepsHardened(env: Env, st: Stage, req: Request, resp: Response, sess: Session)
    requires Hardened(resp)
    ensures Hardened(Before(env, st, req, resp, sess).resp)
  {
    match st
    case NoSurf =>
      ErrorKeepsHardened(resp, "", STATUS_BAD_REQUEST);
    case Authenticate =>
      ErrorKeepsHardened(resp, StatusText(STATUS_INTERNAL_SERVER_ERROR), STATUS_INTERNAL_SERVER_ERROR);
    case RequireAuthentication =>
      RedirectKeepsHardened(resp, req, "/user/login", STATUS_SEE_OTHER);
      AddKeepsHardened(resp, "Cache-Control", "no-store");
    case RequireUnauthentication =>
      RedirectKeepsHardened(resp, req, "/", STATUS_SEE_OTHER);
    case _ =>
  }

  lemma SetKeepsHardened(r: Response, key: string, value: string)
    requires Hardened(r) && !IsSecurityHeader(key)
    ensures Hardened(r.Set(key, value))
  {
  }

  lemma AddKeepsHardened(r: Response, key: string, value: string)
    requires Hardened(r) && !IsSecurityHeader(key)
    ensures Hardened(r.Add(key, value))
  {
  }

  lemma AfterKeepsHardened(st: Stage, resp: Response, panicked: bool)
    requires Hardened(resp)
    ensures Hardened(After(st, resp, panicked).0)
  {
    if st.RecoverPanic? && panicked {
      ErrorKeepsHardened(resp.Set("Connection", "close"), StatusText(STATUS_INTERNAL_SERVER_ERROR), STATUS_INTERNAL_SERVER_ERROR);
    }
  }

  lemma {:induction false} RunKeepsHardened(app: App, env: Env, mux: Mux, c: seq<Stage>, h: Handler, req: Request, resp: Response, sess: Session, trace: seq<Event>)
    requires Hardened(resp)
    ensures Hardened(Run(app, env, mux, c, h, req, resp, sess, trace).resp)
    decreases Rank(h), |c|, 1
  {
    if c == [] {
      InvokeKeepsHardened(app, env, mux, h, req, resp, sess, trace);
    } else {
      StepKeepsHardened(app, env, mux, c[0], c[1..], h, req, resp, sess, trace);
    }
  }

  lemma {:induction false} StepKeepsHardened(app: App, env: Env, mux: Mux, st: Stage, rest: seq<Stage>, h: Handler, req: Request, resp: Response, sess: Session, trace: seq<Event>)
    requires Hardened(resp)
    ensures Hardened(Step(app, env, mux, st, rest, h, req, resp, sess, trace).resp)
    decreases Rank(h), |rest| + 1, 0
  {
    var d := Before(env, st, req, resp, sess);
    StageKeepsHardened(env, st, req, resp, sess, false);
    if d.Continue? {
      var o := Run(app, env, mux, rest, h, d.req, d.resp, sess, trace + [Entered(st)]);
      RunKeepsHardened(app, env, mux, rest, h, d.req, d.resp, sess, trace + [Entered(st)]);
      StageKeepsHardened(env, st, req, o.resp, sess, o.panicked);
    }
  }

  lemma {:induction false} InvokeKeepsHardened(app: App, env: Env, mux: Mux, h: Handler, req: Request, resp: Response, sess: Session, trace: seq<Event>)
    requires Hardened(resp)
    ensures Hardened(Invoke(app, env, mux, h, req, resp, sess, trace).resp)
    decreases Rank(h), 0, 0
  {
    match h
    case EndpointHandler(e) => HandleKeepsHardened(app, env, e, req, resp, sess);
    case RouterHandler =>
      match Dispatch(mux, req.verb, req.path)
      case ToRoute(i, params) =>
        var route := mux.entries[i].route;
        RunKeepsHardened(app, env, mux, route.chain, EndpointHandler(route.endpoint), req.(params := params), resp, sess, trace);
      case AutoOptions(allow) =>
        SetKeepsHardened(resp, "Allow", allow);
      case NotAllowed(allow) =>
        SetKeepsHardened(resp, "Allow", allow);
        ErrorKeepsHardened(resp.Set("Allow", allow), StatusText(STATUS_METHOD_NOT_ALLOWED), STATUS_METHOD_NOT_ALLOWED);
      case NoRoute =>
        var e := if mux.notFound.Some? then mux.notFound.value else DefaultNotFound;
        InvokeKeepsHardened(app, env, mux, EndpointHandler(e), req, resp, sess, trace);
  }

  /** The standard chain hardens whatever response it starts from. */
  lemma StandardIsHardened(app: App, env: Env, mux: Mux, req: Request, resp: Response, sess: Session, trace: seq<Event>)
    ensures Hardened(Run(app, env, mux, STANDARD, RouterHandler, req, resp, sess, trace).resp)
  {
    StandardUnfolds(app, env, mux, req, resp, sess, trace);
    var inner := Invoke(app, env, mux, RouterHandler, req, SecureHeadersOn(resp), sess, trace + Entries(STANDARD));
    InvokeKeepsHardened(app, env, mux, RouterHandler, req, SecureHeadersOn(resp), sess, trace + Entries(STANDARD));
    StageKeepsHardened(env, RecoverPanic, req, inner.resp, sess, inner.panicked);
  }

  /** Every response `routes()`'s handler sends carries the five security headers. */
  lemma ExchangeIsHardened(app: App, env: Env, req: Request, sess: Session)
    ensures Hardened(Exchange(app, env, req, sess).resp)
  {
    StandardIsHardened(app, env, RoutesMux(app.revision), req, BLANK, sess, []);
  }
}
