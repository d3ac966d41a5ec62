/**
 * The parts of net/http the pipeline relies on: header maps with `Set`,
 * `Add` and `Del`, the request with its context entries, the response a
 * handler builds, a `ResponseWriter` object that handlers update in place,
 * and the library helpers `http.Error` and `http.Redirect`.
 */
module Http {
  import opened Wrappers
  import opened Templates

  const GET := "GET"
  const HEAD := "HEAD"
  const POST := "POST"
  const OPTIONS := "OPTIONS"

  const STATUS_OK := 200
  const STATUS_SEE_OTHER := 303
  const STATUS_BAD_REQUEST := 400
  const STATUS_NOT_FOUND := 404
  const STATUS_METHOD_NOT_ALLOWED := 405
  const STATUS_UNPROCESSABLE_ENTITY := 422
  const STATUS_INTERNAL_SERVER_ERROR := 500

  /** `http.StatusText` for the codes this program writes ("" for any other). */
  function StatusText(code: int): string
  {
    if code == 200 then "OK"
    else if code == 303 then "See Other"
    else if code == 400 then "Bad Request"
    else if code == 404 then "Not Found"
    else if code == 405 then "Method Not Allowed"
    else if code == 422 then "Unprocessable Entity"
    else if code == 500 then "Internal Server Error"
    else ""
  }

  /** A header multimap; keys are taken to be in canonical form already. */
  type Header = map<string, seq<string>>

  /** `Header.Get`: the first value stored under the key, or "". */
  function HeaderGet(h: Header, key: string): string
  {
    if key in h && h[key] != [] then h[key][0] else ""
  }

  /** `Header.Set`: replaces every value of the key by one value. */
  function HeaderSet(h: Header, key: string, value: string): Header
  {
    h[key := [value]]
  }

  /** `Header.Add`: appends a value to those already stored under the key. */
  function HeaderAdd(h: Header, key: string, value: string): (h': Header)
    ensures h'.Keys == h.Keys + {key}
    ensures key in h ==> h'[key] == h[key] + [value]
    ensures key !in h ==> h'[key] == [value]
    ensures forall k :: k in h && k != key ==> h'[k] == h[k]
  {
    h[key := (if key in h then h[key] else []) + [value]]
  }

  /** `Header.Del`. */
  function HeaderDel(h: Header, key: string): Header
  {
    h - {key}
  }

  /** The value stored under the request-context key of the authentication flag. */
  datatype CtxValue = Missing | BoolValue(b: bool) | NonBool

  /**
   * A request as the pipeline sees it: method (`verb`), path, and the two
   * request-context entries middleware and router attach: the
   * authentication flag and the route parameters.
   */
  datatype Request = Request(verb: string, path: string, authFlag: CtxValue, params: map<string, string>)

  /** A request as it arrives from a client: its context holds nothing yet. */
  function NewRequest(verb: string, path: string): Request
  {
    Request(verb, path, Missing, map[])
  }

  /** `httprouter.Params.ByName`: the parameter's value, or "" when absent. */
  function ParamByName(req: Request, name: string): string
  {
    if name in req.params then req.params[name] else ""
  }

  /** A piece of response body: literal text, or a page produced by executing a template. */
  datatype Chunk = Text(s: string) | Rendered(page: string, data: TemplateData)

  /**
   * What a handler has produced so far: the header map, whether (and with
   * which code) the status line was written, and the body.
   */
  datatype Response = Response(header: Header, wroteHeader: bool, status: int, body: seq<Chunk>)
  {
    function Set(key: string, value: string): Response
    {
      this.(header := HeaderSet(header, key, value))
    }

    function Add(key: string, value: string): Response
    {
      this.(header := HeaderAdd(header, key, value))
    }

    function Del(key: string): Response
    {
      this.(header := HeaderDel(header, key))
    }

    /** The status the client receives: Go's server sends 200 when no code was written. */
    function Code(): int
    {
      if wroteHeader then status else STATUS_OK
    }

    /** `WriteHeader`: only the first call has an effect. */
    function WriteHeader(code: int): (r: Response)
      ensures r.wroteHeader && r.header == header && r.body == body
      ensures r.Code() == (if wroteHeader then Code() else code)
    {
      if wroteHeader then this else this.(wroteHeader := true, status := code)
    }

    /** `Write`: commits the status 200 if none was written, then appends to the body. */
    function Write(c: Chunk): (r: Response)
      ensures r.wroteHeader && r.header == header && r.body == body + [c]
      ensures r.Code() == Code()
    {
      var committed := WriteHeader(STATUS_OK);
      committed.(body := committed.body + [c])
    }

    /**
     * `http.Error`: drops Content-Length, declares a plain-text body that
     * must not be sniffed, writes the code and the message on one line.
     */
    function Error(text: string, code: int): (r: Response)
      ensures r.Code() == (if wroteHeader then Code() else code)
      ensures r.body == body + [Text(text + "\n")]
      ensures HeaderGet(r.header, "Content-Type") == "text/plain; charset=utf-8"
      ensures HeaderGet(r.header, "X-Content-Type-Options") == "nosniff"
      ensures "Content-Length" !in r.header
      ensures r.header.Keys <= header.Keys + {"Content-Type", "X-Content-Type-Options"}
      ensures forall k :: k in header && k != "Content-Length" && k != "Content-Type" && k != "X-Content-Type-Options" ==>
        k in r.header && r.header[k] == header[k]
    {
      Del("Content-Length")
        .Set("Content-Type", "text/plain; charset=utf-8")
        .Set("X-Content-Type-Options", "nosniff")
        .WriteHeader(code)
        .Write(Text(text + "\n"))
    }

    /**
     * `http.Redirect` to an absolute path: sets Location; for GET and HEAD
     * without a Content-Type, declares HTML; writes the code; and for GET
     * without a Content-Type, writes a short link to the target.
     */
    function Redirect(req: Request, url: string, code: int): (r: Response)
      ensures r.Code() == (if wroteHeader then Code() else code)
      ensures HeaderGet(r.header, "Location") == url
      ensures "Content-Type" in header ==> "Content-Type" in r.header && r.header["Content-Type"] == header["Content-Type"]
      ensures "Content-Type" !in header && (req.verb == GET || req.verb == HEAD) ==>
        HeaderGet(r.header, "Content-Type") == "text/html; charset=utf-8"
      ensures "Content-Type" !in header && req.verb != GET && req.verb != HEAD ==> "Content-Type" !in r.header
      ensures r.header.Keys <= header.Keys + {"Location", "Content-Type"}
      ensures forall k :: k in header && k != "Location" && k != "Content-Type" ==> k in r.header && r.header[k] == header[k]
      ensures "Content-Type" !in header && req.verb == GET ==>
        r.body == body + [Text("<a href=\"" + url + "\">" + StatusText(code) + "</a>.\n" + "\n")]
      ensures "Content-Type" in header || req.verb != GET ==> r.body == body
    {
      var hadContentType := "Content-Type" in header;
      var located := Set("Location", url);
      var typed :=
        if !hadContentType && (req.verb == GET || req.verb == HEAD)
        then located.Set("Content-Type", "text/html; charset=utf-8")
        else located;
      var written := typed.WriteHeader(code);
      if !hadContentType && req.verb == GET
      then written.Write(Text("<a href=\"" + url + "\">" + StatusText(code) + "</a>.\n" + "\n"))
      else written
    }
  }

  /** A response nothing has been done to yet. */
  const BLANK := Response(map[], false, 0, [])

  /** The `http.ResponseWriter` a request is served with, updated in place. */
  class ResponseWriter {
    var header: Header
    var wroteHeader: bool
    var status: int
    var body: seq<Chunk>

    function Snapshot(): Response
      reads this
    {
      Response(header, wroteHeader, status, body)
    }

    constructor ()
      ensures Snapshot() == BLANK
    {
      header, wroteHeader, status, body := map[], false, 0, [];
    }

    /** `w.Header().Set(key, value)`. */
    method Set(key: string, value: string)
      modifies this
      ensures Snapshot() == old(Snapshot()).Set(key, value)
    {
      header := HeaderSet(header, key, value);
    }

    /** `w.Header().Add(key, value)`. */
    method Add(key: string, value: string)
      modifies this
      ensures Snapshot() == old(Snapshot()).Add(key, value)
    {
      header := HeaderAdd(header, key, value);
    }

    /** `w.Header().Del(key)`. */
    method Del(key: string)
      modifies this
      ensures Snapshot() == old(Snapshot()).Del(key)
    {
      header := HeaderDel(header, key);
    }

    method WriteHeader(code: int)
      modifies this
      ensures Snapshot() == old(Snapshot()).WriteHeader(code)
    {
      if !wroteHeader {
        wroteHeader, status := true, code;
      }
    }

    method Write(c: Chunk)
      modifies this
      ensures Snapshot() == old(Snapshot()).Write(c)
    {
      WriteHeader(STATUS_OK);
      body := body + [c];
    }
  }

  /** `http.Error(w, text, code)`. */
  method Error(w: ResponseWriter, text: string, code: int)
    modifies w
    ensures w.Snapshot() == old(w.Snapshot()).Error(text, code)
  {
    w.Del("Content-Length");
    w.Set("Content-Type", "text/plain; charset=utf-8");
    w.Set("X-Content-Type-Options", "nosniff");
    w.WriteHeader(code);
    w.Write(Text(text + "\n"));
  }

  /** `http.Redirect(w, req, url, code)` for an absolute-path url. */
  method Redirect(w: ResponseWriter, req: Request, url: string, code: int)
    modifies w
    ensures w.Snapshot() == old(w.Snapshot()).Redirect(req, url, code)
  {
    var hadContentType := "Content-Type" in w.header;
    w.Set("Location", url);
    if !hadContentType && (req.verb == GET || req.verb == HEAD) {
      w.Set("Content-Type", "text/html; charset=utf-8");
    }
    w.WriteHeader(code);
    if !hadContentType && req.verb == GET {
      w.Write(Text("<a href=\"" + url + "\">" + StatusText(code) + "</a>.\n" + "\n"));
    }
  }
}
