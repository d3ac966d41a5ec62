/**
 * The application's fixed configuration and the outcomes of its
 * collaborators for one request. Every call a handler or middleware makes
 * into code outside this model (the users and snippets models, the form
 * decoder, the validation rules, template execution, the CSRF library, the
 * session store's token generator, the file server) happens at most once
 * per request, so its outcome is one field of `Env`; leaving a field
 * unconstrained lets a lemma range over every outcome.
 */
module Application {
  import opened Wrappers
  import opened Models
  import opened Sessions

  /**
   * The code as written, or with the two corrections of its evident
   * mistakes (README, "Findings"): `authenticate` in the dynamic chain and
   * a `return` after the failed insert in `snippetCreatePost`.
   */
  datatype Revision = AsWritten | Corrected

  /** The `application` struct's configuration: the names in the template cache. */
  datatype App = App(revision: Revision, templateCache: set<string>)

  /** The fields the form decoder may fill in, for whichever form a handler decodes into. */
  datatype FormFields = FormFields(
    title: string, content: string, expires: int,
    name: string, email: string, password: string)

  /** The outcome of parsing the body and decoding it into a form struct. */
  datatype PostForm =
    | ParseFailed            // req.ParseForm failed
    | DecoderMisconfigured   // the decoder returned *form.InvalidDecoderError
    | DecodeFailed           // any other decoding error
    | Decoded(fields: FormFields)

  /** The outcome of executing the page template into a buffer. */
  datatype Execution = Executes | FailsAfter(partial: string)

  /** What the static file server finds under the requested path. */
  datatype StaticFile = FileFound(content: string) | FileMissing

  datatype Env = Env(
    csrfAccepted: bool,                      // nosurf's verdict on the submitted token
    csrfToken: string,                       // nosurf.Token(req)
    userExists: Result<bool, DbError>,         // users.Exists(id)
    latest: Result<seq<Snippet>, DbError>,   // snippets.Latest()
    get: Result<Snippet, DbError>,           // snippets.Get(id)
    insertSnippet: Result<Int64, DbError>,   // snippets.Insert(...); a failure returns id 0
    insertUser: Option<DbError>,             // users.Insert(...): its error, if any
    authenticate: Result<Int64, DbError>,    // users.Authenticate(email, password)
    postForm: PostForm,                      // decodePostForm's parse and decode
    redecodes: bool,                         // the second formDecoder.Decode in snippetCreatePost succeeds
    fieldErrors: map<string, string>,        // the errors the form's CheckField calls record
    renewDraw: Option<Token>,                // RenewToken: the new token, or None when the store fails
    execution: Execution,                    // template execution
    staticFile: StaticFile)                  // the file server's lookup
}
