/**
 * routes.go: the route table registered on the httprouter mux, the
 * middleware chains built with alice, and the router's dispatch of a
 * request to a route, to its automatic OPTIONS and 405 answers, or to the
 * not-found handler.
 */
module Routes {
  import opened Wrappers
  import opened Http
  import opened Application
  import opened Middleware
  import opened Handlers

  // ---------------------------------------------------------------- patterns

  /**
   * An httprouter path pattern: a literal path, a literal prefix followed
   * by one named segment (`:name`), or a literal prefix followed by a
   * catch-all (`*name`) that takes the rest of the path from its slash on.
   */
  datatype Pattern = Exact(path: string) | Param(prefix: string, name: string) | CatchAll(prefix: string, name: string)

  /** A value the pattern's parameter can take: one non-empty segment, or a rest that starts with a slash. */
  predicate ValidValue(p: Pattern, value: string)
  {
    match p
    case Exact(_) => true
    case Param(_, _) => value != [] && '/' !in value
    case CatchAll(_, _) => value != [] && value[0] == '/'
  }

  /** The path a pattern stands for once its parameter holds `value`. */
  function Fill(p: Pattern, value: string): string
  {
    match p
    case Exact(path) => path
    case Param(prefix, _) => prefix + value
    case CatchAll(prefix, _) => prefix + value
  }

  /** The parameter map a match produces. */
  function Bind(p: Pattern, value: string): map<string, string>
  {
    match p
    case Exact(_) => map[]
    case Param(_, name) => map[name := value]
    case CatchAll(_, name) => map[name := value]
  }

  /** The parameter value recorded in a match's parameter map. */
  function ValueOf(p: Pattern, params: map<string, string>): string
  {
    match p
    case Exact(_) => ""
    case Param(_, name) => if name in params then params[name] else ""
    case CatchAll(_, name) => if name in params then params[name] else ""
  }

  /**
   * Matching a path against a pattern: on success, the parameter map,
   * which holds a valid value that fills the pattern to exactly this path.
   */
  function Match(p: Pattern, path: string): (r: Option<map<string, string>>)
    ensures r.Some? ==>
      && ValidValue(p, ValueOf(p, r.value))
      && Fill(p, ValueOf(p, r.value)) == path
      && r.value == Bind(p, ValueOf(p, r.value))
  {
    match p
    case Exact(s) => if path == s then Some(map[]) else None
    case Param(prefix, name) =>
      if |prefix| < |path| && path[..|prefix|] == prefix && '/' !in path[|prefix|..] then
        assert prefix + path[|prefix|..] == path;
        Some(map[name := path[|prefix|..]])
      else None
    case CatchAll(prefix, name) =>
      if |prefix| < |path| && path[..|prefix|] == prefix && path[|prefix|] == '/' then
        assert prefix + path[|prefix|..] == path;
        Some(map[name := path[|prefix|..]])
      else None
  }

  /** Filling a pattern with a valid value gives a path that matches it with exactly that value. */
  lemma FillThenMatch(p: Pattern, value: string)
    requires ValidValue(p, value)
    ensures Match(p, Fill(p, value)) == Some(Bind(p, value))
  {
    var path := Fill(p, value);
    match p
    case Exact(_) =>
    case Param(prefix, _) =>
      assert path[..|prefix|] == prefix && path[|prefix|..] == value;
    case CatchAll(prefix, _) =>
      assert path[..|prefix|] == prefix && path[|prefix|..] == value;
  }

  /** A path matches a pattern exactly when it is the pattern filled with some valid value. */
  lemma MatchIffFilled(p: Pattern, path: string)
    ensures Match(p, path).Some? <==> exists v :: ValidValue(p, v) && Fill(p, v) == path
  {
    if exists v :: ValidValue(p, v) && Fill(p, v) == path {
      var v :| ValidValue(p, v) && Fill(p, v) == path;
      FillThenMatch(p, v);
    }
  }

  // ---------------------------------------------------------------- chains

  /** An alice chain: the stages that wrap a handler, outermost first. */
  datatype Chain = Chain(stages: seq<Stage>)

  /** `alice.New`. */
  function New(stages: seq<Stage>): (c: Chain)
    ensures c.stages == stages
  {
    Chain(stages)
  }

  /** `Chain.Append`: a new chain, the original's stages first; the original is not changed. */
  function Append(c: Chain, more: seq<Stage>): (r: Chain)
    ensures |r.stages| == |c.stages| + |more|
    ensures r.stages[..|c.stages|] == c.stages && r.stages[|c.stages|..] == more
  {
    Chain(c.stages + more)
  }

  /** A route: the chain of stages and the handler at its end (`Chain.ThenFunc`). */
  datatype Route = Route(chain: seq<Stage>, endpoint: Endpoint)

  function ThenFunc(c: Chain, e: Endpoint): (r: Route)
    ensures r.chain == c.stages && r.endpoint == e
  {
    Route(c.stages, e)
  }

  /** The chain around every dynamic route; the corrected program also authenticates. */
  function Dynamic(rev: Revision): (c: Chain)
    ensures |c.stages| >= 2 && c.stages[..2] == [LoadAndSave, NoSurf]
    ensures Authenticate in c.stages <==> rev == Corrected
  {
    if rev == AsWritten then
      var c := New([LoadAndSave, NoSurf]);
      assert |c.stages| == 2 && Authenticate != c.stages[0] && Authenticate != c.stages[1];
      c
    else
      assert rev == Corrected;
      var c := New([LoadAndSave, NoSurf, Authenticate]);
      assert |c.stages| == 3 && c.stages[2] == Authenticate;
      c
  }

  /** The dynamic chain with `requireUnauthentication` appended: the dynamic stages first and unchanged, the guard last. */
  function Unauthenticated(rev: Revision): (c: Chain)
    ensures |c.stages| == |Dynamic(rev).stages| + 1
    ensures c.stages[..|Dynamic(rev).stages|] == Dynamic(rev).stages && c.stages[|Dynamic(rev).stages|] == RequireUnauthentication
  {
    Append(Dynamic(rev), [RequireUnauthentication])
  }

  /** The dynamic chain with `requireAuthentication` appended: the dynamic stages first and unchanged, the guard last. */
  function Authenticated(rev: Revision): (c: Chain)
    ensures |c.stages| == |Dynamic(rev).stages| + 1
    ensures c.stages[..|Dynamic(rev).stages|] == Dynamic(rev).stages && c.stages[|Dynamic(rev).stages|] == RequireAuthentication
  {
    Append(Dynamic(rev), [RequireAuthentication])
  }

  /** The chain around the router itself. */
  const STANDARD: seq<Stage> := [RecoverPanic, LogRequest, SecureHeaders]

  // ---------------------------------------------------------------- route table

  datatype Entry = Entry(verb: string, pattern: Pattern, route: Route)

  const STATIC := CatchAll("/static", "filepath")
  const VIEW := Param("/snippet/view/", "id")

  /** The file server's registration, outside every chain. */
  function StaticRoutes(): (t: seq<Entry>)
    ensures |t| == 1 && t[0].route == Route([], FileServer)
  {
    [ Entry(GET, STATIC, Route([], FileServer)) ]
  }

  /** The public pages, behind the dynamic chain. */
  function DynamicRoutes(dynamic: Chain): (t: seq<Entry>)
    ensures |t| == 2 && forall i :: 0 <= i < |t| ==> t[i].route.chain == dynamic.stages
  {
    [ Entry(GET, Exact("/"), ThenFunc(dynamic, Home)),
      Entry(GET, VIEW, ThenFunc(dynamic, SnippetView)) ]
  }

  /** Sign-up and login, behind the chain that turns signed-in users away. */
  function UnauthenticatedRoutes(unauthenticated: Chain): (t: seq<Entry>)
    ensures |t| == 4 && forall i :: 0 <= i < |t| ==> t[i].route.chain == unauthenticated.stages
  {
    [ Entry(GET, Exact("/user/signup"), ThenFunc(unauthenticated, UserSignup)),
      Entry(POST, Exact("/user/signup"), ThenFunc(unauthenticated, UserSignupPost)),
      Entry(GET, Exact("/user/login"), ThenFunc(unauthenticated, UserLogin)),
      Entry(POST, Exact("/user/login"), ThenFunc(unauthenticated, UserLoginPost)) ]
  }

  /** Snippet creation and logout, behind the chain that sends anonymous users to the login page. */
  function AuthenticatedRoutes(authenticated: Chain): (t: seq<Entry>)
    ensures |t| == 3 && forall i :: 0 <= i < |t| ==> t[i].route.chain == authenticated.stages
  {
    [ Entry(GET, Exact("/snippet/create"), ThenFunc(authenticated, SnippetCreate)),
      Entry(POST, Exact("/snippet/create"), ThenFunc(authenticated, SnippetCreatePost)),
      Entry(POST, Exact("/user/logout"), ThenFunc(authenticated, UserLogoutPost)) ]
  }

  /** The registrations of `routes()`, in order. */
  function RouteTable(rev: Revision): (t: seq<Entry>)
    ensures |t| == 10
  {
    StaticRoutes() + DynamicRoutes(Dynamic(rev)) + UnauthenticatedRoutes(Unauthenticated(rev)) + AuthenticatedRoutes(Authenticated(rev))
  }

  /** The router's configuration: its registrations and its NotFound handler. */
  datatype Mux = Mux(entries: seq<Entry>, notFound: Option<Endpoint>)

  function RoutesMux(rev: Revision): Mux
  {
    Mux(RouteTable(rev), Some(NotFoundPage))
  }

  // ---------------------------------------------------------------- dispatch

  /** Whether entry `e` serves a request with this method and path. */
  predicate Serves(e: Entry, verb: string, path: string)
  {
    e.verb == verb && Match(e.pattern, path).Some?
  }

  /** The index of the first entry from `from` on that serves the request. */
  function FindFrom(entries: seq<Entry>, verb: string, path: string, from: nat): (r: Option<nat>)
    requires from <= |entries|
    ensures r.Some? ==>
      && from <= r.value < |entries| && Serves(entries[r.value], verb, path)
      && forall j :: from <= j < r.value ==> !Serves(entries[j], verb, path)
    ensures r.None? ==> forall j :: from <= j < |entries| ==> !Serves(entries[j], verb, path)
    decreases |entries| - from
  {
    if from == |entries| then None
    else if Serves(entries[from], verb, path) then Some(from)
    else FindFrom(entries, verb, path, from + 1)
  }

  /** Whether some registration of `verb` has a pattern matching the path. */
  predicate PathHas(entries: seq<Entry>, verb: string, path: string)
  {
    exists i :: 0 <= i < |entries| && Serves(entries[i], verb, path)
  }

  /**
   * The `Allow` header httprouter sends: the other methods registered for
   * the path and OPTIONS, sorted. Registrations here use only GET and POST.
   */
  function AllowHeader(entries: seq<Entry>, verb: string, path: string): (a: string)
    ensures (|a| >= 5 && a[..5] == "GET, ") <==> verb != GET && PathHas(entries, GET, path)
    ensures (|a| >= 6 && a[|a| - 6..] == ", POST") <==> verb != POST && PathHas(entries, POST, path)
  {
    var get := if verb != GET && PathHas(entries, GET, path) then "GET, " else "";
    var post := if verb != POST && PathHas(entries, POST, path) then ", POST" else "";
    var a := get + "OPTIONS" + post;
    assert a[..5] == (if get == "" then "OPTIO" else "GET, ");
    assert a[|a| - 6..] == (if post == "" then "PTIONS" else ", POST");
    a
  }

  /** What the router does with a request. */
  datatype Decision =
    | ToRoute(index: nat, params: map<string, string>)
    | AutoOptions(allow: string)      // OPTIONS for a registered path: 200 with Allow
    | NotAllowed(allow: string)       // registered for other methods only: 405 with Allow
    | NoRoute                         // the NotFound handler

  /** Whether any registration, of any method, matches the path. */
  predicate Registered(entries: seq<Entry>, path: string)
  {
    exists i :: 0 <= i < |entries| && Match(entries[i].pattern, path).Some?
  }

  /**
   * httprouter's `ServeHTTP` decision for an absolute path. A route is
   * taken when one is registered for the method; otherwise OPTIONS and
   * other methods on registered paths get automatic answers; everything
   * else goes to NotFound.
   */
  function Dispatch(m: Mux, verb: string, path: string): (d: Decision)
    ensures d.ToRoute? <==> PathHas(m.entries, verb, path)
    ensures d.ToRoute? ==>
      && d.index < |m.entries| && Serves(m.entries[d.index], verb, path)
      && Match(m.entries[d.index].pattern, path) == Some(d.params)
      && forall k :: 0 <= k < d.index ==> !Serves(m.entries[k], verb, path)
    ensures d.NoRoute? <==> !Registered(m.entries, path)
  {
    match FindFrom(m.entries, verb, path, 0)
    case Some(i) => ToRoute(i, Match(m.entries[i].pattern, path).value)
    case None =>
      if !Registered(m.entries, path) then NoRoute
      else if verb == OPTIONS then AutoOptions(AllowHeader(m.entries, verb, path))
      else NotAllowed(AllowHeader(m.entries, verb, path))
  }

  /** The only pattern of the table a path can match: decided by its leading segments. */
  function Classify(path: string): Pattern
  {
    if |path| >= 8 && path[..8] == "/static/" then STATIC
    else if |path| > 14 && path[..14] == "/snippet/view/" then VIEW
    else Exact(path)
  }

  /** Whether a pattern is one that `routes()` registers. */
  predicate Registrable(p: Pattern)
  {
    || p == STATIC || p == VIEW || p == Exact("/") || p == Exact("/user/signup") || p == Exact("/user/login")
    || p == Exact("/snippet/create") || p == Exact("/user/logout")
  }

  lemma MatchDeterminesPattern(p: Pattern, path: string)
    requires Registrable(p)
    ensures Match(p, path).Some? ==> p == Classify(path)
  {
    if Match(p, path).Some? {
      if p == STATIC {
        assert path[..8] == path[..7] + [path[7]] == "/static/";
      } else if p == VIEW {
        assert path[..14] == "/snippet/view/";
        assert path[..8] != "/static/" by { assert path[2] == 'n'; }
      } else if p == Exact("/snippet/create") {
        assert path[2] == 'n' && path[9] == 'c';
      } else if p != Exact("/") {
        assert path[1] == 'u';
      }
    }
  }

  /** The position of the registration for a method and a registrable pattern. */
  function KeyIndex(verb: string, p: Pattern): nat
  {
    if p == STATIC then 0
    else if p == Exact("/") then 1
    else if p == VIEW then 2
    else if p == Exact("/user/signup") then (if verb == GET then 3 else 4)
    else if p == Exact("/user/login") then (if verb == GET then 5 else 6)
    else if p == Exact("/snippet/create") then (if verb == GET then 7 else 8)
    else 9
  }

  lemma StaticKeys()
    ensures var e := StaticRoutes()[0]; Registrable(e.pattern) && KeyIndex(e.verb, e.pattern) == 0
  {
  }

  lemma DynamicKeys(dynamic: Chain)
    ensures forall k :: 0 <= k < 2 ==>
      var e := DynamicRoutes(dynamic)[k]; Registrable(e.pattern) && KeyIndex(e.verb, e.pattern) == 1 + k
  {
  }

  lemma UnauthenticatedKeys(unauthenticated: Chain)
    ensures forall k :: 0 <= k < 4 ==>
      var e := UnauthenticatedRoutes(unauthenticated)[k]; Registrable(e.pattern) && KeyIndex(e.verb, e.pattern) == 3 + k
  {
    assert GET != POST;
  }

  lemma AuthenticatedKeys(authenticated: Chain)
    ensures forall k :: 0 <= k < 3 ==>
      var e := AuthenticatedRoutes(authenticated)[k]; Registrable(e.pattern) && KeyIndex(e.verb, e.pattern) == 7 + k
  {
    assert GET != POST;
  }

  /** Joining the four groups keeps each registration at its key's position. */
  lemma JoinedKeys(s: seq<Entry>, d: seq<Entry>, u: seq<Entry>, a: seq<Entry>, i: nat)
    requires |s| == 1 && |d| == 2 && |u| == 4 && |a| == 3 && i < 10
    requires Registrable(s[0].pattern) && KeyIndex(s[0].verb, s[0].pattern) == 0
    requires forall k :: 0 <= k < 2 ==> Registrable(d[k].pattern) && KeyIndex(d[k].verb, d[k].pattern) == 1 + k
    requires forall k :: 0 <= k < 4 ==> Registrable(u[k].pattern) && KeyIndex(u[k].verb, u[k].pattern) == 3 + k
    requires forall k :: 0 <= k < 3 ==> Registrable(a[k].pattern) && KeyIndex(a[k].verb, a[k].pattern) == 7 + k
    ensures var e := (s + d + u + a)[i]; Registrable(e.pattern) && KeyIndex(e.verb, e.pattern) == i
  {
    var t := s + d + u + a;
    if i < 1 {
      assert t[i] == s[0];
    } else if i < 3 {
      assert t[i] == d[i - 1];
    } else if i < 7 {
      assert t[i] == u[i - 3];
    } else {
      assert t[i] == a[i - 7];
    }
  }

  /** No two registrations share method and pattern: each is found at its key's position. */
  lemma KeysIdentifyEntries(rev: Revision, i: nat)
    requires i < |RouteTable(rev)|
    ensures Registrable(RouteTable(rev)[i].pattern)
    ensures KeyIndex(RouteTable(rev)[i].verb, RouteTable(rev)[i].pattern) == i
  {
    StaticKeys();
    DynamicKeys(Dynamic(rev));
    UnauthenticatedKeys(Unauthenticated(rev));
    AuthenticatedKeys(Authenticated(rev));
    JoinedKeys(StaticRoutes(), DynamicRoutes(Dynamic(rev)), UnauthenticatedRoutes(Unauthenticated(rev)), AuthenticatedRoutes(Authenticated(rev)), i);
  }

  /** Within one method, no two registrations match the same path, so the order of the table does not matter. */
  lemma RouteTableUnambiguous(rev: Revision, verb: string, path: string, i: nat, j: nat)
    requires i < j < |RouteTable(rev)|
    ensures !(Serves(RouteTable(rev)[i], verb, path) && Serves(RouteTable(rev)[j], verb, path))
  {
    var t := RouteTable(rev);
    KeysIdentifyEntries(rev, i);
    KeysIdentifyEntries(rev, j);
    MatchDeterminesPattern(t[i].pattern, path);
    MatchDeterminesPattern(t[j].pattern, path);
  }

  /** The chain `routes()` puts in front of each handler. */
  function ChainOf(rev: Revision, e: Endpoint): seq<Stage>
  {
    match e
    case Home | SnippetView => Dynamic(rev).stages
    case UserSignup | UserSignupPost | UserLogin | UserLoginPost => Unauthenticated(rev).stages
    case SnippetCreate | SnippetCreatePost | UserLogoutPost => Authenticated(rev).stages
    case FileServer | NotFoundPage | DefaultNotFound => []
  }

  lemma StaticChain(rev: Revision)
    ensures var e := StaticRoutes()[0]; e.route.chain == ChainOf(rev, e.route.endpoint)
  {
  }

  lemma DynamicChains(rev: Revision)
    ensures forall k :: 0 <= k < 2 ==>
      var e := DynamicRoutes(Dynamic(rev))[k]; e.route.chain == ChainOf(rev, e.route.endpoint)
  {
  }

  lemma UnauthenticatedChains(rev: Revision)
    ensures forall k :: 0 <= k < 4 ==>
      var e := UnauthenticatedRoutes(Unauthenticated(rev))[k]; e.route.chain == ChainOf(rev, e.route.endpoint)
  {
  }

  lemma AuthenticatedChains(rev: Revision)
    ensures forall k :: 0 <= k < 3 ==>
      var e := AuthenticatedRoutes(Authenticated(rev))[k]; e.route.chain == ChainOf(rev, e.route.endpoint)
  {
  }

  lemma JoinedChains(rev: Revision, s: seq<Entry>, d: seq<Entry>, u: seq<Entry>, a: seq<Entry>, i: nat)
    requires |s| == 1 && |d| == 2 && |u| == 4 && |a| == 3 && i < 10
    requires s[0].route.chain == ChainOf(rev, s[0].route.endpoint)
    requires forall k :: 0 <= k < 2 ==> d[k].route.chain == ChainOf(rev, d[k].route.endpoint)
    requires forall k :: 0 <= k < 4 ==> u[k].route.chain == ChainOf(rev, u[k].route.endpoint)
    requires forall k :: 0 <= k < 3 ==> a[k].route.chain == ChainOf(rev, a[k].route.endpoint)
    ensures var e := (s + d + u + a)[i]; e.route.chain == ChainOf(rev, e.route.endpoint)
  {
    var t := s + d + u + a;
    if i < 1 {
      assert t[i] == s[0];
    } else if i < 3 {
      assert t[i] == d[i - 1];
    } else if i < 7 {
      assert t[i] == u[i - 3];
    } else {
      assert t[i] == a[i - 7];
    }
  }

  /**
   * Every registration runs the chain its handler's group calls for: the
   * file server none, the public pages the dynamic chain, sign-up and login
   * the dynamic chain then `requireUnauthentication`, snippet creation and
   * logout the dynamic chain then `requireAuthentication`.
   */
  lemma TableChains(rev: Revision, i: nat)
    requires i < |RouteTable(rev)|
    ensures RouteTable(rev)[i].route.chain == ChainOf(rev, RouteTable(rev)[i].route.endpoint)
  {
    StaticChain(rev);
    DynamicChains(rev);
    UnauthenticatedChains(rev);
    AuthenticatedChains(rev);
    JoinedChains(rev, StaticRoutes(), DynamicRoutes(Dynamic(rev)), UnauthenticatedRoutes(Unauthenticated(rev)), AuthenticatedRoutes(Authenticated(rev)), i);
  }

  // ---------------------------------------------------------------- router object

  /** The httprouter mux `routes()` fills in: registrations and the NotFound handler. */
  class Router {
    var entries: seq<Entry>
    var notFound: Option<Endpoint>

    function Snapshot(): Mux
      reads this
    {
      Mux(entries, notFound)
    }

    /** `httprouter.New`. */
    constructor ()
      ensures Snapshot() == Mux([], None)
    {
      entries, notFound := [], None;
    }

    /** `Router.Handler`: registers a route after the existing ones. */
    method Handler(verb: string, pattern: Pattern, route: Route)
      modifies this
      ensures entries == old(entries) + [Entry(verb, pattern, route)] && notFound == old(notFound)
    {
      entries := entries + [Entry(verb, pattern, route)];
    }

    method SetNotFound(e: Endpoint)
      modifies this
      ensures notFound == Some(e) && entries == old(entries)
    {
      notFound := Some(e);
    }
  }

  /** The public pages of `routes()`, registered on `router` after what it holds. */
  method RegisterDynamic(router: Router, dynamic: Chain)
    modifies router
    ensures router.entries == old(router.entries) + DynamicRoutes(dynamic) && router.notFound == old(router.notFound)
  {
    router.Handler(GET, Exact("/"), ThenFunc(dynamic, Home));
    router.Handler(GET, VIEW, ThenFunc(dynamic, SnippetView));
  }

  method RegisterUnauthenticated(router: Router, unauthenticated: Chain)
    modifies router
    ensures router.entries == old(router.entries) + UnauthenticatedRoutes(unauthenticated) && router.notFound == old(router.notFound)
  {
    router.Handler(GET, Exact("/user/signup"), ThenFunc(unauthenticated, UserSignup));
    router.Handler(POST, Exact("/user/signup"), ThenFunc(unauthenticated, UserSignupPost));
    router.Handler(GET, Exact("/user/login"), ThenFunc(unauthenticated, UserLogin));
    router.Handler(POST, Exact("/user/login"), ThenFunc(unauthenticated, UserLoginPost));
  }

  method RegisterAuthenticated(router: Router, authenticated: Chain)
    modifies router
    ensures router.entries == old(router.entries) + AuthenticatedRoutes(authenticated) && router.notFound == old(router.notFound)
  {
    router.Handler(GET, Exact("/snippet/create"), ThenFunc(authenticated, SnippetCreate));
    router.Handler(POST, Exact("/snippet/create"), ThenFunc(authenticated, SnippetCreatePost));
    router.Handler(POST, Exact("/user/logout"), ThenFunc(authenticated, UserLogoutPost));
  }

  /** `routes()`: the router with its NotFound handler and every registration, in order. */
  method NewRoutes(app: App) returns (router: Router)
    ensures fresh(router) && router.Snapshot() == RoutesMux(app.revision)
  {
    router := new Router();
    router.SetNotFound(NotFoundPage);
    router.Handler(GET, STATIC, Route([], FileServer));
    assert router.entries == StaticRoutes();
    RegisterDynamic(router, Dynamic(app.revision));
    RegisterUnauthenticated(router, Unauthenticated(app.revision));
    RegisterAuthenticated(router, Authenticated(app.revision));
  }
}
