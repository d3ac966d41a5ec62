/**
 * helpers.go: the authentication-flag lookup, the error writers, template
 * rendering through a buffer, template data with the flash pop, and the
 * classification of form-decoding errors.
 */
module Helpers {
  import opened Wrappers
  import opened Http
  import opened Templates
  import opened Sessions
  import opened Application

  /** `isAuthenticated`: the context flag when it is a bool, false otherwise. */
  function IsAuthenticated(req: Request): (b: bool)
    ensures b <==> req.authFlag == BoolValue(true)
    ensures req.authFlag.Missing? || req.authFlag.NonBool? ==> !b
  {
    match req.authFlag
    case BoolValue(v) => v
    case _ => false
  }

  /** `serverError` on a response value (the logged stack trace is not modelled). */
  function ServerErrorOn(r: Response): (r': Response)
    ensures !r.wroteHeader ==> r'.Code() == STATUS_INTERNAL_SERVER_ERROR
    ensures r'.body == r.body + [Text("Internal Server Error\n")]
  {
    assert StatusText(STATUS_INTERNAL_SERVER_ERROR) + "\n" == "Internal Server Error\n";
    r.Error(StatusText(STATUS_INTERNAL_SERVER_ERROR), STATUS_INTERNAL_SERVER_ERROR)
  }

  /** `clientError(status)` on a response value. */
  function ClientErrorOn(r: Response, status: int): (r': Response)
    ensures !r.wroteHeader ==> r'.Code() == status
    ensures r'.body == r.body + [Text(StatusText(status) + "\n")]
  {
    r.Error(StatusText(status), status)
  }

  /** `notFound` on a response value. */
  function NotFoundOn(r: Response): (r': Response)
    ensures !r.wroteHeader ==> r'.Code() == STATUS_NOT_FOUND
    ensures r'.body == r.body + [Text("Not Found\n")]
  {
    assert StatusText(STATUS_NOT_FOUND) + "\n" == "Not Found\n";
    ClientErrorOn(r, STATUS_NOT_FOUND)
  }

  /** `notFound` is `clientError(404)`, and the two 4xx writers differ from `serverError` only in code and text. */
  lemma ErrorWritersAgree(r: Response)
    ensures NotFoundOn(r) == ClientErrorOn(r, STATUS_NOT_FOUND)
    ensures ServerErrorOn(r) == ClientErrorOn(r, STATUS_INTERNAL_SERVER_ERROR)
  {
  }

  method ServerError(w: ResponseWriter)
    modifies w
    ensures w.Snapshot() == ServerErrorOn(old(w.Snapshot()))
  {
    Error(w, StatusText(STATUS_INTERNAL_SERVER_ERROR), STATUS_INTERNAL_SERVER_ERROR);
  }

  method ClientError(w: ResponseWriter, status: int)
    modifies w
    ensures w.Snapshot() == ClientErrorOn(old(w.Snapshot()), status)
  {
    Error(w, StatusText(status), status);
  }

  method NotFound(w: ResponseWriter)
    modifies w
    ensures w.Snapshot() == NotFoundOn(old(w.Snapshot()))
  {
    ClientError(w, STATUS_NOT_FOUND);
  }

  /** Whether `render` gets as far as writing the page. */
  predicate RenderSucceeds(app: App, execution: Execution, page: string)
  {
    page in app.templateCache && execution.Executes?
  }

  /**
   * `render` on a response value. Exactly one chunk is appended: the
   * executed page, after the requested status, when the page is cached and
   * executes; otherwise the 500 message, and never any partial output.
   */
  function RenderOn(app: App, execution: Execution, r: Response, status: int, page: string, data: TemplateData): (r': Response)
    ensures |r'.body| == |r.body| + 1 && r'.body[..|r.body|] == r.body
    ensures r'.body[|r.body|] ==
      if RenderSucceeds(app, execution, page) then Rendered(page, data) else Text("Internal Server Error\n")
    ensures !r.wroteHeader ==>
      r'.Code() == if RenderSucceeds(app, execution, page) then status else STATUS_INTERNAL_SERVER_ERROR
  {
    if page !in app.templateCache then ServerErrorOn(r)
    else match execution
      case FailsAfter(_) => ServerErrorOn(r)
      case Executes => r.WriteHeader(status).Write(Rendered(page, data))
  }

  /** `render`: executes into a buffer, and writes status and buffer only when execution succeeded. */
  method Render(app: App, execution: Execution, w: ResponseWriter, status: int, page: string, data: TemplateData)
    modifies w
    ensures w.Snapshot() == RenderOn(app, execution, old(w.Snapshot()), status, page, data)
  {
    if page !in app.templateCache {
      ServerError(w);
      return;
    }
    var buf: seq<Chunk> := [];
    match execution {
      case FailsAfter(partial) =>
        buf := buf + [Text(partial)];
        ServerError(w);
        return;
      case Executes =>
        buf := buf + [Rendered(page, data)];
    }
    w.WriteHeader(status);
    w.Write(buf[0]);
  }

  /**
   * `newTemplateData` on values: the data carries the session's flash and
   * the request's authentication flag, and the session loses its flash.
   */
  function NewTemplateDataOn(req: Request, sess: Session, csrfToken: string): (r: (TemplateData, Session))
    ensures r.0.flash == sess.PeekString(FLASH_KEY) && FLASH_KEY !in r.1.values
    ensures r.1 == sess.Remove(FLASH_KEY)
    ensures r.0.isAuthenticated == IsAuthenticated(req) && r.0.csrfToken == csrfToken
    ensures r.0.form == NoForm && r.0.snippet == None && r.0.snippets == []
  {
    (TemplateData(sess.PeekString(FLASH_KEY), IsAuthenticated(req), csrfToken, NoForm, None, []),
     sess.Remove(FLASH_KEY))
  }

  /** The flash is shown once: a second template-data build in the same session sees none. */
  lemma FlashIsSingleUse(req: Request, sess: Session, csrfToken: string)
    ensures NewTemplateDataOn(req, NewTemplateDataOn(req, sess, csrfToken).1, csrfToken).0.flash == ""
  {
  }

  method NewTemplateData(req: Request, s: SessionData, csrfToken: string) returns (data: TemplateData)
    modifies s
    ensures (data, s.Snapshot()) == NewTemplateDataOn(req, old(s.Snapshot()), csrfToken)
  {
    var flash := s.PopString(FLASH_KEY);
    data := TemplateData(flash, IsAuthenticated(req), csrfToken, NoForm, None, []);
  }

  /** What `decodePostForm` does: return the fields, return an error, or panic. */
  datatype Decoding = FormOk(fields: FormFields) | FormError | Escalate

  /**
   * `decodePostForm`: parse and ordinary decode errors are returned; an
   * invalid-decoder error is a programming error and escalates as a panic.
   */
  function DecodePostForm(p: PostForm): (d: Decoding)
    ensures d.Escalate? <==> p.DecoderMisconfigured?
    ensures d.FormError? <==> p.ParseFailed? || p.DecodeFailed?
    ensures d.FormOk? <==> p.Decoded?
    ensures d.FormOk? ==> d.fields == p.fields
  {
    match p
    case ParseFailed => FormError
    case DecoderMisconfigured => Escalate
    case DecodeFailed => FormError
    case Decoded(fields) => FormOk(fields)
  }
}
