/**
 * The data handed to the HTML templates: the forms the handlers fill in
 * (with their embedded validator) and `templateData`. Parsing and executing
 * templates is not part of this model; a rendered page is represented by
 * its name and the data it was given.
 */
module Templates {
  import opened Wrappers
  import opened Models

  /**
   * The validator embedded in every form. Which checks fail is decided by
   * validation rules outside this model; the handlers only add errors and
   * ask whether any were recorded.
   */
  datatype Validator = Validator(fieldErrors: map<string, string>, nonFieldErrors: seq<string>)
  {
    predicate Valid() { fieldErrors == map[] && nonFieldErrors == [] }

    /** Records a message for a field that has none yet. */
    function AddFieldError(key: string, message: string): (v: Validator)
      ensures key in v.fieldErrors
      ensures key !in fieldErrors ==> v.fieldErrors[key] == message
      ensures v.fieldErrors.Keys == fieldErrors.Keys + {key}
      ensures forall k :: k in fieldErrors ==> v.fieldErrors[k] == fieldErrors[k]
      ensures v.nonFieldErrors == nonFieldErrors && !v.Valid()
    {
      if key in fieldErrors then this else this.(fieldErrors := fieldErrors[key := message])
    }

    function AddNonFieldError(message: string): (v: Validator)
      ensures v.fieldErrors == fieldErrors && v.nonFieldErrors == nonFieldErrors + [message]
      ensures !v.Valid()
    {
      this.(nonFieldErrors := nonFieldErrors + [message])
    }
  }

  const NO_ERRORS := Validator(map[], [])

  /** The three forms of handlers.go, plus "no form on this page". */
  datatype Form =
    | NoForm
    | SnippetCreateForm(title: string, content: string, expires: int, v: Validator)
    | UserSignupForm(name: string, email: string, password: string, v: Validator)
    | UserLoginForm(email: string, password: string, v: Validator)

  /** `templateData`, without the clock-derived current year. */
  datatype TemplateData = TemplateData(
    flash: string,
    isAuthenticated: bool,
    csrfToken: string,
    form: Form,
    snippet: Option<Snippet>,
    snippets: seq<Snippet>)
}
