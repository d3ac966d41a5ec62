/**
 * handlers.go: the terminal handlers. Each one exists twice: a function on
 * values (response, session) that states the outcome for every
 * collaborator result, and a method that updates the response writer and
 * the session data step by step, as the Go handler does, proved to end in
 * exactly that outcome.
 */
module Handlers {
  import opened Wrappers
  import opened Models
  import opened Strconv
  import opened Templates
  import opened Http
  import opened Sessions
  import opened Application
  import opened Helpers

  /** The handlers a route can end in. */
  datatype Endpoint =
    | Home | SnippetView | SnippetCreate | SnippetCreatePost
    | UserSignup | UserSignupPost | UserLogin | UserLoginPost | UserLogoutPost
    | FileServer       // the static file server under /static/
    | NotFoundPage     // router.NotFound, set in routes()
    | DefaultNotFound  // the router's own fallback when NotFound is unset

  /** A handler's effect: the response, the session, and whether it panicked. */
  datatype Served = Served(resp: Response, sess: Session, panicked: bool)

  const SIGNUP_FLASH := "Your signup was successful. Please log in."
  const LOGOUT_FLASH := "You've been logged out successfully!"
  const CREATED_FLASH := "Snippet successfully created!"
  const DUPLICATE_EMAIL := "Email address is already in use"
  const BAD_CREDENTIALS := "Email or password is incorrect"
  const DEFAULT_EXPIRES := 365

  /** The status a page render ends in: the requested one, or 500 when rendering fails. */
  function PageStatus(app: App, env: Env, page: string, status: int): int
  {
    if RenderSucceeds(app, env.execution, page) then status else STATUS_INTERNAL_SERVER_ERROR
  }

  /** `after` answers with `code`, provided nothing had been written to `before`. */
  predicate Answers(before: Response, after: Response, code: int)
  {
    !before.wroteHeader ==> after.Code() == code
  }

  /** `after` is a 303 See Other to `url`, provided nothing had been written to `before`. */
  predicate SeesOther(before: Response, after: Response, url: string)
  {
    Answers(before, after, STATUS_SEE_OTHER) && HeaderGet(after.header, "Location") == url
  }

  /** The data of the page the response ends with, if it ends with a rendered page. */
  function LastPage(r: Response): Option<TemplateData>
  {
    if r.body != [] && r.body[|r.body| - 1].Rendered? then Some(r.body[|r.body| - 1].data) else None
  }

  /** "data := newTemplateData(req); data.Form = form; render(...)". */
  function RenderFormOn(app: App, env: Env, req: Request, resp: Response, sess: Session, status: int, page: string, form: Form): (r: Served)
    ensures !r.panicked && r.sess == sess.Remove(FLASH_KEY)
    ensures Answers(resp, r.resp, PageStatus(app, env, page, status))
    ensures RenderSucceeds(app, env.execution, page) ==>
      LastPage(r.resp).Some? && LastPage(r.resp).value.form == form
      && LastPage(r.resp).value.flash == sess.PeekString(FLASH_KEY)
  {
    var (data, sess') := NewTemplateDataOn(req, sess, env.csrfToken);
    Served(RenderOn(app, env.execution, resp, status, page, data.(form := form)), sess', false)
  }

  method RenderForm(app: App, env: Env, req: Request, w: ResponseWriter, s: SessionData, status: int, page: string, form: Form)
    modifies w, s
    ensures Served(w.Snapshot(), s.Snapshot(), false) == RenderFormOn(app, env, req, old(w.Snapshot()), old(s.Snapshot()), status, page, form)
  {
    var data := NewTemplateData(req, s, env.csrfToken);
    data := data.(form := form);
    Render(app, env.execution, w, status, page, data);
  }

  // ---------------------------------------------------------------- home

  function HomeOn(app: App, env: Env, req: Request, resp: Response, sess: Session): (r: Served)
    ensures !r.panicked
    ensures env.latest.Failure? ==> r.sess == sess && Answers(resp, r.resp, STATUS_INTERNAL_SERVER_ERROR)
    ensures env.latest.Success? ==> Answers(resp, r.resp, PageStatus(app, env, "home.gohtml", STATUS_OK))
    ensures env.latest.Success? ==> r.sess == sess.Remove(FLASH_KEY)
    ensures env.latest.Success? && RenderSucceeds(app, env.execution, "home.gohtml") ==>
      LastPage(r.resp).Some? && LastPage(r.resp).value.snippets == env.latest.value
  {
    match env.latest
    case Failure(_) => Served(ServerErrorOn(resp), sess, false)
    case Success(snippets) =>
      var (data, sess') := NewTemplateDataOn(req, sess, env.csrfToken);
      Served(RenderOn(app, env.execution, resp, STATUS_OK, "home.gohtml", data.(snippets := snippets)), sess', false)
  }

  method ServeHome(app: App, env: Env, req: Request, w: ResponseWriter, s: SessionData)
    modifies w, s
    ensures Served(w.Snapshot(), s.Snapshot(), false) == HomeOn(app, env, req, old(w.Snapshot()), old(s.Snapshot()))
  {
    if env.latest.Failure? {
      ServerError(w);
      return;
    }
    var data := NewTemplateData(req, s, env.csrfToken);
    data := data.(snippets := env.latest.value);
    Render(app, env.execution, w, STATUS_OK, "home.gohtml", data);
  }

  // ---------------------------------------------------------------- signup

  const EMPTY_SIGNUP_FORM := UserSignupForm("", "", "", NO_ERRORS)

  function UserSignupOn(app: App, env: Env, req: Request, resp: Response, sess: Session): (r: Served)
    ensures !r.panicked && Answers(resp, r.resp, PageStatus(app, env, "signup.gohtml", STATUS_OK))
  {
    RenderFormOn(app, env, req, resp, sess, STATUS_OK, "signup.gohtml", EMPTY_SIGNUP_FORM)
  }

  method ServeUserSignup(app: App, env: Env, req: Request, w: ResponseWriter, s: SessionData)
    modifies w, s
    ensures Served(w.Snapshot(), s.Snapshot(), false) == UserSignupOn(app, env, req, old(w.Snapshot()), old(s.Snapshot()))
  {
    RenderForm(app, env, req, w, s, STATUS_OK, "signup.gohtml", EMPTY_SIGNUP_FORM);
  }

  /** Whether the decoded form passed the validation checks. */
  predicate Validates(env: Env) { env.fieldErrors == map[] }

  /**
   * `userSignupPost`: 400 on a decode error, a panic on a misconfigured
   * decoder, 422 on failed validation or a duplicate email (with an error
   * on the email field), 500 on any other insert error, and on success the
   * signup flash and a 303 to the login page.
   */
  function UserSignupPostOn(app: App, env: Env, req: Request, resp: Response, sess: Session): (r: Served)
    ensures r.panicked <==> env.postForm.DecoderMisconfigured?
    ensures r.panicked ==> r.resp == resp && r.sess == sess
    ensures env.postForm.ParseFailed? || env.postForm.DecodeFailed? ==>
      r.sess == sess && Answers(resp, r.resp, STATUS_BAD_REQUEST)
    ensures env.postForm.Decoded? && !Validates(env) ==>
      Answers(resp, r.resp, PageStatus(app, env, "signup.gohtml", STATUS_UNPROCESSABLE_ENTITY))
    ensures env.postForm.Decoded? && Validates(env) && env.insertUser == Some(ErrDuplicateEmail) ==>
      Answers(resp, r.resp, PageStatus(app, env, "signup.gohtml", STATUS_UNPROCESSABLE_ENTITY))
      && (RenderSucceeds(app, env.execution, "signup.gohtml") ==>
            LastPage(r.resp).Some? && LastPage(r.resp).value.form.UserSignupForm?
            && "email" in LastPage(r.resp).value.form.v.fieldErrors)
    ensures env.postForm.Decoded? && Validates(env) && env.insertUser.Some? && env.insertUser != Some(ErrDuplicateEmail) ==>
      r.sess == sess && Answers(resp, r.resp, STATUS_INTERNAL_SERVER_ERROR)
    ensures env.postForm.Decoded? && Validates(env) && env.insertUser.None? ==>
      r.sess == sess.Put(FLASH_KEY, StringValue(SIGNUP_FLASH)) && SeesOther(resp, r.resp, "/user/login")
  {
    match DecodePostForm(env.postForm)
    case Escalate => Served(resp, sess, true)
    case FormError => Served(ClientErrorOn(resp, STATUS_BAD_REQUEST), sess, false)
    case FormOk(f) =>
      var form := UserSignupForm(f.name, f.email, f.password, Validator(env.fieldErrors, []));
      if !form.v.Valid() then
        RenderFormOn(app, env, req, resp, sess, STATUS_UNPROCESSABLE_ENTITY, "signup.gohtml", form)
      else match env.insertUser
        case Some(err) =>
          if err == ErrDuplicateEmail then
            var form' := UserSignupForm(f.name, f.email, f.password, form.v.AddFieldError("email", DUPLICATE_EMAIL));
            RenderFormOn(app, env, req, resp, sess, STATUS_UNPROCESSABLE_ENTITY, "signup.gohtml", form')
          else Served(ServerErrorOn(resp), sess, false)
        case None =>
          Served(resp.Redirect(req, "/user/login", STATUS_SEE_OTHER), sess.Put(FLASH_KEY, StringValue(SIGNUP_FLASH)), false)
  }

  method ServeUserSignupPost(app: App, env: Env, req: Request, w: ResponseWriter, s: SessionData) returns (panicked: bool)
    modifies w, s
    ensures Served(w.Snapshot(), s.Snapshot(), panicked) == UserSignupPostOn(app, env, req, old(w.Snapshot()), old(s.Snapshot()))
  {
    panicked := false;
    var decoded := DecodePostForm(env.postForm);
    if decoded.Escalate? {
      panicked := true;
      return;
    }
    if decoded.FormError? {
      ClientError(w, STATUS_BAD_REQUEST);
      return;
    }
    var f := decoded.fields;
    var form := UserSignupForm(f.name, f.email, f.password, Validator(env.fieldErrors, []));
    if !form.v.Valid() {
      RenderForm(app, env, req, w, s, STATUS_UNPROCESSABLE_ENTITY, "signup.gohtml", form);
      return;
    }
    if env.insertUser.Some? {
      if env.insertUser.value == ErrDuplicateEmail {
        form := UserSignupForm(f.name, f.email, f.password, form.v.AddFieldError("email", DUPLICATE_EMAIL));
        RenderForm(app, env, req, w, s, STATUS_UNPROCESSABLE_ENTITY, "signup.gohtml", form);
      } else {
        ServerError(w);
      }
      return;
    }
    s.Put(FLASH_KEY, StringValue(SIGNUP_FLASH));
    Redirect(w, req, "/user/login", STATUS_SEE_OTHER);
  }

  // ---------------------------------------------------------------- login

  const EMPTY_LOGIN_FORM := UserLoginForm("", "", NO_ERRORS)

  function UserLoginOn(app: App, env: Env, req: Request, resp: Response, sess: Session): (r: Served)
    ensures !r.panicked && Answers(resp, r.resp, PageStatus(app, env, "login.gohtml", STATUS_OK))
  {
    RenderFormOn(app, env, req, resp, sess, STATUS_OK, "login.gohtml", EMPTY_LOGIN_FORM)
  }

  method ServeUserLogin(app: App, env: Env, req: Request, w: ResponseWriter, s: SessionData)
    modifies w, s
    ensures Served(w.Snapshot(), s.Snapshot(), false) == UserLoginOn(app, env, req, old(w.Snapshot()), old(s.Snapshot()))
  {
    RenderForm(app, env, req, w, s, STATUS_OK, "login.gohtml", EMPTY_LOGIN_FORM);
  }

  /** The token and the identity key of a session, which only login and logout change. */
  predicate SameIdentity(a: Session, b: Session)
  {
    a.token == b.token && (USER_ID_KEY in a.values <==> USER_ID_KEY in b.values)
    && (USER_ID_KEY in a.values ==> a.values[USER_ID_KEY] == b.values[USER_ID_KEY])
  }

  /**
   * `userLoginPost`. Only a successful authentication followed by a
   * successful token renewal changes the session's identity: then the token
   * is new, the identity key holds the authenticated id, and the answer is a
   * 303 to the snippet form. Invalid credentials re-show the form (422) with
   * a non-field error; other failures answer 500.
   */
  function UserLoginPostOn(app: App, env: Env, req: Request, resp: Response, sess: Session): (r: Served)
    ensures r.panicked <==> env.postForm.DecoderMisconfigured?
    ensures r.panicked ==> r.resp == resp && r.sess == sess
    ensures env.postForm.ParseFailed? || env.postForm.DecodeFailed? ==>
      r.sess == sess && Answers(resp, r.resp, STATUS_BAD_REQUEST)
    ensures env.postForm.Decoded? && !Validates(env) ==>
      SameIdentity(r.sess, sess) && Answers(resp, r.resp, PageStatus(app, env, "login.gohtml", STATUS_UNPROCESSABLE_ENTITY))
    ensures env.postForm.Decoded? && Validates(env) && env.authenticate == Failure(ErrInvalidCredentials) ==>
      SameIdentity(r.sess, sess)
      && Answers(resp, r.resp, PageStatus(app, env, "login.gohtml", STATUS_UNPROCESSABLE_ENTITY))
      && (RenderSucceeds(app, env.execution, "login.gohtml") ==>
            LastPage(r.resp).Some? && LastPage(r.resp).value.form.UserLoginForm?
            && LastPage(r.resp).value.form.v.nonFieldErrors == [BAD_CREDENTIALS])
    ensures env.postForm.Decoded? && Validates(env) && env.authenticate.Failure?
            && env.authenticate != Failure(ErrInvalidCredentials) ==>
      r.sess == sess && Answers(resp, r.resp, STATUS_INTERNAL_SERVER_ERROR)
    ensures env.postForm.Decoded? && Validates(env) && env.authenticate.Success? && env.renewDraw.None? ==>
      r.sess == sess && Answers(resp, r.resp, STATUS_INTERNAL_SERVER_ERROR)
    ensures env.postForm.Decoded? && Validates(env) && env.authenticate.Success? && env.renewDraw.Some? ==>
      r.sess.token != sess.token
      && r.sess.GetInt(USER_ID_KEY) == env.authenticate.value
      && r.sess == sess.Renew(env.renewDraw.value).Put(USER_ID_KEY, IntValue(env.authenticate.value))
      && SeesOther(resp, r.resp, "/snippet/create")
  {
    match DecodePostForm(env.postForm)
    case Escalate => Served(resp, sess, true)
    case FormError => Served(ClientErrorOn(resp, STATUS_BAD_REQUEST), sess, false)
    case FormOk(f) =>
      var form := UserLoginForm(f.email, f.password, Validator(env.fieldErrors, []));
      if !form.v.Valid() then
        RenderFormOn(app, env, req, resp, sess, STATUS_UNPROCESSABLE_ENTITY, "login.gohtml", form)
      else match env.authenticate
        case Failure(err) =>
          if err == ErrInvalidCredentials then
            var form' := UserLoginForm(f.email, f.password, form.v.AddNonFieldError(BAD_CREDENTIALS));
            RenderFormOn(app, env, req, resp, sess, STATUS_UNPROCESSABLE_ENTITY, "login.gohtml", form')
          else Served(ServerErrorOn(resp), sess, false)
        case Success(id) =>
          match Renewed(sess, env.renewDraw)
          case None => Served(ServerErrorOn(resp), sess, false)
          case Some(renewed) =>
            Served(resp.Redirect(req, "/snippet/create", STATUS_SEE_OTHER), renewed.Put(USER_ID_KEY, IntValue(id)), false)
  }

  method ServeUserLoginPost(app: App, env: Env, req: Request, w: ResponseWriter, s: SessionData) returns (panicked: bool)
    modifies w, s
    ensures Served(w.Snapshot(), s.Snapshot(), panicked) == UserLoginPostOn(app, env, req, old(w.Snapshot()), old(s.Snapshot()))
  {
    panicked := false;
    var decoded := DecodePostForm(env.postForm);
    if decoded.Escalate? {
      panicked := true;
      return;
    }
    if decoded.FormError? {
      ClientError(w, STATUS_BAD_REQUEST);
      return;
    }
    var f := decoded.fields;
    var form := UserLoginForm(f.email, f.password, Validator(env.fieldErrors, []));
    if !form.v.Valid() {
      RenderForm(app, env, req, w, s, STATUS_UNPROCESSABLE_ENTITY, "login.gohtml", form);
      return;
    }
    if env.authenticate.Failure? {
      if env.authenticate.error == ErrInvalidCredentials {
        form := UserLoginForm(f.email, f.password, form.v.AddNonFieldError(BAD_CREDENTIALS));
        RenderForm(app, env, req, w, s, STATUS_UNPROCESSABLE_ENTITY, "login.gohtml", form);
      } else {
        ServerError(w);
      }
      return;
    }
    var id := env.authenticate.value;
    var renewed := s.RenewToken(env.renewDraw);
    if !renewed {
      ServerError(w);
      return;
    }
    s.Put(USER_ID_KEY, IntValue(id));
    Redirect(w, req, "/snippet/create", STATUS_SEE_OTHER);
  }

  // ---------------------------------------------------------------- logout

  /**
   * `userLogoutPost`: on a successful renewal the token is new, the
   * identity key is gone, the logout flash is set and the answer is a 303
   * to the home page; a failed renewal answers 500 and leaves the session,
   * identity included, as it was.
   */
  function UserLogoutPostOn(env: Env, req: Request, resp: Response, sess: Session): (r: Served)
    ensures !r.panicked
    ensures env.renewDraw.None? ==> r.sess == sess && Answers(resp, r.resp, STATUS_INTERNAL_SERVER_ERROR)
    ensures env.renewDraw.Some? ==>
      r.sess.token != sess.token && USER_ID_KEY !in r.sess.values
      && r.sess.PeekString(FLASH_KEY) == LOGOUT_FLASH
      && r.sess == sess.Renew(env.renewDraw.value).Remove(USER_ID_KEY).Put(FLASH_KEY, StringValue(LOGOUT_FLASH))
      && SeesOther(resp, r.resp, "/")
  {
    match Renewed(sess, env.renewDraw)
    case None => Served(ServerErrorOn(resp), sess, false)
    case Some(renewed) =>
      Served(resp.Redirect(req, "/", STATUS_SEE_OTHER),
             renewed.Remove(USER_ID_KEY).Put(FLASH_KEY, StringValue(LOGOUT_FLASH)), false)
  }

  method ServeUserLogoutPost(env: Env, req: Request, w: ResponseWriter, s: SessionData)
    modifies w, s
    ensures Served(w.Snapshot(), s.Snapshot(), false) == UserLogoutPostOn(env, req, old(w.Snapshot()), old(s.Snapshot()))
  {
    var renewed := s.RenewToken(env.renewDraw);
    if !renewed {
      ServerError(w);
      return;
    }
    s.Remove(USER_ID_KEY);
    s.Put(FLASH_KEY, StringValue(LOGOUT_FLASH));
    Redirect(w, req, "/", STATUS_SEE_OTHER);
  }

  // ---------------------------------------------------------------- snippets

  /** The snippet id `snippetView` accepts: an integer of at least 1. */
  function ViewedId(req: Request): Option<int>
  {
    match Atoi(ParamByName(req, "id"))
    case None => None
    case Some(id) => if id < 1 then None else Some(id)
  }

  /**
   * `snippetView`: a missing, non-integer or non-positive id is a 404
   * without a lookup; a lookup that finds no record is a 404, any other
   * lookup error a 500; otherwise the snippet's page.
   */
  function SnippetViewOn(app: App, env: Env, req: Request, resp: Response, sess: Session): (r: Served)
    ensures !r.panicked
    ensures ViewedId(req).None? ==> r.sess == sess && Answers(resp, r.resp, STATUS_NOT_FOUND)
    ensures ViewedId(req).Some? && env.get == Failure(ErrNoRecord) ==>
      r.sess == sess && Answers(resp, r.resp, STATUS_NOT_FOUND)
    ensures ViewedId(req).Some? && env.get.Failure? && env.get != Failure(ErrNoRecord) ==>
      r.sess == sess && Answers(resp, r.resp, STATUS_INTERNAL_SERVER_ERROR)
    ensures ViewedId(req).Some? && env.get.Success? ==>
      r.sess == sess.Remove(FLASH_KEY)
      && Answers(resp, r.resp, PageStatus(app, env, "view.gohtml", STATUS_OK))
      && (RenderSucceeds(app, env.execution, "view.gohtml") ==>
            LastPage(r.resp).Some? && LastPage(r.resp).value.snippet == Some(env.get.value))
  {
    match Atoi(ParamByName(req, "id"))
    case None => Served(NotFoundOn(resp), sess, false)
    case Some(id) =>
      if id < 1 then Served(NotFoundOn(resp), sess, false)
      else match env.get
        case Failure(err) =>
          if err == ErrNoRecord then Served(NotFoundOn(resp), sess, false)
          else Served(ServerErrorOn(resp), sess, false)
        case Success(snippet) =>
          var (data, sess') := NewTemplateDataOn(req, sess, env.csrfToken);
          Served(RenderOn(app, env.execution, resp, STATUS_OK, "view.gohtml", data.(snippet := Some(snippet))), sess', false)
  }

  method ServeSnippetView(app: App, env: Env, req: Request, w: ResponseWriter, s: SessionData)
    modifies w, s
    ensures Served(w.Snapshot(), s.Snapshot(), false) == SnippetViewOn(app, env, req, old(w.Snapshot()), old(s.Snapshot()))
  {
    var parsed := Atoi(ParamByName(req, "id"));
    if parsed.None? || parsed.value < 1 {
      NotFound(w);
      return;
    }
    if env.get.Failure? {
      if env.get.error == ErrNoRecord {
        NotFound(w);
      } else {
        ServerError(w);
      }
      return;
    }
    var data := NewTemplateData(req, s, env.csrfToken);
    data := data.(snippet := Some(env.get.value));
    Render(app, env.execution, w, STATUS_OK, "view.gohtml", data);
  }

  const EMPTY_SNIPPET_FORM := SnippetCreateForm("", "", DEFAULT_EXPIRES, NO_ERRORS)

  /** `snippetCreate`: the form page, pre-filled to expire after 365 days. */
  function SnippetCreateOn(app: App, env: Env, req: Request, resp: Response, sess: Session): (r: Served)
    ensures !r.panicked && Answers(resp, r.resp, PageStatus(app, env, "create.gohtml", STATUS_OK))
    ensures RenderSucceeds(app, env.execution, "create.gohtml") ==>
      LastPage(r.resp).Some? && LastPage(r.resp).value.form.SnippetCreateForm?
      && LastPage(r.resp).value.form.expires == 365
  {
    RenderFormOn(app, env, req, resp, sess, STATUS_OK, "create.gohtml", EMPTY_SNIPPET_FORM)
  }

  method ServeSnippetCreate(app: App, env: Env, req: Request, w: ResponseWriter, s: SessionData)
    modifies w, s
    ensures Served(w.Snapshot(), s.Snapshot(), false) == SnippetCreateOn(app, env, req, old(w.Snapshot()), old(s.Snapshot()))
  {
    RenderForm(app, env, req, w, s, STATUS_OK, "create.gohtml", EMPTY_SNIPPET_FORM);
  }

  /** Where `snippetCreatePost` sends the client: the new snippet's page. */
  function CreatedLocation(id: int): string
  {
    "/snippet/view/" + Itoa(id)
  }

  /**
   * `snippetCreatePost`. Decode errors (from either decode) answer 400,
   * failed validation re-shows the form (422). After a successful insert the
   * flash is set and the answer is a 303 to the new snippet. After a failed
   * insert the answer is 500; as written, the handler carries on (no
   * `return`) and still sets the flash and calls the redirect, whose status
   * is then superfluous; corrected, the session is left alone.
   */
  function SnippetCreatePostOn(app: App, env: Env, req: Request, resp: Response, sess: Session): (r: Served)
    ensures r.panicked <==> env.postForm.DecoderMisconfigured?
    ensures r.panicked ==> r.resp == resp && r.sess == sess
    ensures env.postForm.ParseFailed? || env.postForm.DecodeFailed? || (env.postForm.Decoded? && !env.redecodes) ==>
      r.sess == sess && Answers(resp, r.resp, STATUS_BAD_REQUEST)
    ensures env.postForm.Decoded? && env.redecodes && !Validates(env) ==>
      Answers(resp, r.resp, PageStatus(app, env, "create.gohtml", STATUS_UNPROCESSABLE_ENTITY))
    ensures env.postForm.Decoded? && env.redecodes && Validates(env) && env.insertSnippet.Success? ==>
      r.sess == sess.Put(FLASH_KEY, StringValue(CREATED_FLASH))
      && SeesOther(resp, r.resp, CreatedLocation(env.insertSnippet.value))
    ensures env.postForm.Decoded? && env.redecodes && Validates(env) && env.insertSnippet.Failure? ==>
      Answers(resp, r.resp, STATUS_INTERNAL_SERVER_ERROR)
    ensures env.postForm.Decoded? && env.redecodes && Validates(env) && env.insertSnippet.Failure? ==>
      r.sess == if app.revision == AsWritten then sess.Put(FLASH_KEY, StringValue(CREATED_FLASH)) else sess
  {
    match DecodePostForm(env.postForm)
    case Escalate => Served(resp, sess, true)
    case FormError => Served(ClientErrorOn(resp, STATUS_BAD_REQUEST), sess, false)
    case FormOk(f) =>
      if !env.redecodes then Served(ClientErrorOn(resp, STATUS_BAD_REQUEST), sess, false)
      else
        var form := SnippetCreateForm(f.title, f.content, f.expires, Validator(env.fieldErrors, []));
        if !form.v.Valid() then
          RenderFormOn(app, env, req, resp, sess, STATUS_UNPROCESSABLE_ENTITY, "create.gohtml", form)
        else
          var id: int := if env.insertSnippet.Success? then env.insertSnippet.value else 0;
          var afterInsert := if env.insertSnippet.Failure? then ServerErrorOn(resp) else resp;
          if env.insertSnippet.Failure? && app.revision == Corrected then Served(afterInsert, sess, false)
          else
            assert env.insertSnippet.Failure? ==> app.revision == AsWritten;
            Served(afterInsert.Redirect(req, CreatedLocation(id), STATUS_SEE_OTHER),
                   sess.Put(FLASH_KEY, StringValue(CREATED_FLASH)), false)
  }

  method ServeSnippetCreatePost(app: App, env: Env, req: Request, w: ResponseWriter, s: SessionData) returns (panicked: bool)
    modifies w, s
    ensures Served(w.Snapshot(), s.Snapshot(), panicked) == SnippetCreatePostOn(app, env, req, old(w.Snapshot()), old(s.Snapshot()))
  {
    panicked := false;
    var decoded := DecodePostForm(env.postForm);
    if decoded.Escalate? {
      panicked := true;
      return;
    }
    if decoded.FormError? {
      ClientError(w, STATUS_BAD_REQUEST);
      return;
    }
    if !env.redecodes {
      ClientError(w, STATUS_BAD_REQUEST);
      return;
    }
    var f := decoded.fields;
    var form := SnippetCreateForm(f.title, f.content, f.expires, Validator(env.fieldErrors, []));
    if !form.v.Valid() {
      RenderForm(app, env, req, w, s, STATUS_UNPROCESSABLE_ENTITY, "create.gohtml", form);
      return;
    }
    var id: int := 0;
    if env.insertSnippet.Failure? {
      ServerError(w);
      if app.revision == Corrected {
        return;
      }
    } else {
      id := env.insertSnippet.value;
    }
    s.Put(FLASH_KEY, StringValue(CREATED_FLASH));
    Redirect(w, req, CreatedLocation(id), STATUS_SEE_OTHER);
  }

  // ---------------------------------------------------------------- fallbacks

  /** The file server: the file's content, or its "404 page not found". */
  function FileServerOn(env: Env, resp: Response): (r: Response)
    ensures env.staticFile.FileFound? ==> r.body == resp.body + [Text(env.staticFile.content)] && Answers(resp, r, STATUS_OK)
    ensures env.staticFile.FileMissing? ==> Answers(resp, r, STATUS_NOT_FOUND)
  {
    match env.staticFile
    case FileFound(content) => resp.Write(Text(content))
    case FileMissing => resp.Error("404 page not found", STATUS_NOT_FOUND)
  }

  method ServeFile(env: Env, w: ResponseWriter)
    modifies w
    ensures w.Snapshot() == FileServerOn(env, old(w.Snapshot()))
  {
    match env.staticFile {
      case FileFound(content) => w.Write(Text(content));
      case FileMissing => Error(w, "404 page not found", STATUS_NOT_FOUND);
    }
  }

  // ---------------------------------------------------------------- dispatch

  /** Running one endpoint on values. */
  function Handle(app: App, env: Env, e: Endpoint, req: Request, resp: Response, sess: Session): (r: Served)
    ensures r.panicked ==> e in {UserSignupPost, UserLoginPost, SnippetCreatePost} && env.postForm.DecoderMisconfigured?
    ensures r.panicked ==> r.resp == resp && r.sess == sess
    ensures e in {FileServer, NotFoundPage, DefaultNotFound} ==> r.sess == sess
  {
    match e
    case Home => HomeOn(app, env, req, resp, sess)
    case SnippetView => SnippetViewOn(app, env, req, resp, sess)
    case SnippetCreate => SnippetCreateOn(app, env, req, resp, sess)
    case SnippetCreatePost => SnippetCreatePostOn(app, env, req, resp, sess)
    case UserSignup => UserSignupOn(app, env, req, resp, sess)
    case UserSignupPost => UserSignupPostOn(app, env, req, resp, sess)
    case UserLogin => UserLoginOn(app, env, req, resp, sess)
    case UserLoginPost => UserLoginPostOn(app, env, req, resp, sess)
    case UserLogoutPost => UserLogoutPostOn(env, req, resp, sess)
    case FileServer => Served(FileServerOn(env, resp), sess, false)
    case NotFoundPage => Served(NotFoundOn(resp), sess, false)
    case DefaultNotFound => Served(resp.Error("404 page not found", STATUS_NOT_FOUND), sess, false)
  }

  /** Calling one endpoint's handler on the writer and the session. */
  method ServeEndpoint(app: App, env: Env, e: Endpoint, req: Request, w: ResponseWriter, s: SessionData) returns (panicked: bool)
    modifies w, s
    ensures Served(w.Snapshot(), s.Snapshot(), panicked) == Handle(app, env, e, req, old(w.Snapshot()), old(s.Snapshot()))
  {
    panicked := false;
    match e {
      case Home => ServeHome(app, env, req, w, s);
      case SnippetView => ServeSnippetView(app, env, req, w, s);
      case SnippetCreate => ServeSnippetCreate(app, env, req, w, s);
      case SnippetCreatePost => panicked := ServeSnippetCreatePost(app, env, req, w, s);
      case UserSignup => ServeUserSignup(app, env, req, w, s);
      case UserSignupPost => panicked := ServeUserSignupPost(app, env, req, w, s);
      case UserLogin => ServeUserLogin(app, env, req, w, s);
      case UserLoginPost => panicked := ServeUserLoginPost(app, env, req, w, s);
      case UserLogoutPost => ServeUserLogoutPost(env, req, w, s);
      case FileServer => ServeFile(env, w);
      case NotFoundPage => NotFound(w);
      case DefaultNotFound => Error(w, "404 page not found", STATUS_NOT_FOUND);
    }
  }
}
