# snippetbox request pipeline, modelled in Dafny

This project models the web tier of snippetbox, a small Go application for sharing text snippets: the
`cmd/web` package's route table, its middleware chains, its helpers and its handlers. It models a
request's whole journey through them:

- the standard chain `recoverPanic → logRequest → secureHeaders` around the httprouter mux;
- the route table built with alice chains (`dynamic`, `unauthenticated`, `authenticated`);
- the session-backed authentication state that `authenticate`, `requireAuthentication` and
  `requireUnauthentication` read, and that `userLoginPost` and `userLogoutPost` change by renewing the
  session token;
- the status code, redirect, flash message and page each handler produces for every outcome of the
  code it calls.

The model has two layers.

- **Values.** `Response`, `Session` and `Request` are datatypes. Every middleware stage and every
  handler is a function from the request, response and session it receives to the ones it hands on:
  `SecureHeadersOn`, `AuthenticateOn`, `UserLoginPostOn`, and so on. Chain execution is the mutually
  recursive `Pipeline.Run`/`Step`/`Invoke`. It records a trace of the stages entered and the handler
  called, and propagates a panic up to `recoverPanic`.
- **Objects.** `Http.ResponseWriter`, `Sessions.SessionData` and `Routes.Router` are classes that the
  Go code updates in place. Each method that updates them (`ServeUserLoginPost`, `RenderForm`,
  `SetSecureHeaders`, `NewRoutes`, `ServeChain`, …) is proved to leave its objects in exactly the state
  the value-level function describes.

Everything outside the package is a per-request collaborator outcome, held as a field of
`Application.Env`. That covers the users and snippets models, the form decoder, the validation rules,
template execution, nosurf's token check, the session store's token generator and the file server.
Leaving a field unconstrained makes a lemma hold for every outcome.

`Application.Revision` selects between the code as written and the code with the two mistakes listed
under "Findings" corrected.

## Model

| member | source | states |
|---|---|---|
| Helpers.IsAuthenticated | cmd/web/helpers.go:80-87 | true exactly when the request context holds the bool `true`; false when the entry is absent or not a bool |
| Helpers.ServerErrorOn | cmd/web/helpers.go:15-20 | on an unwritten response the status becomes 500, and the body gains "Internal Server Error" and a newline |
| Helpers.ClientErrorOn | cmd/web/helpers.go:22-24 | on an unwritten response the status becomes `status`, and the body gains that status's text and a newline |
| Helpers.NotFoundOn | cmd/web/helpers.go:26-28 | on an unwritten response the status becomes 404, and the body gains "Not Found" and a newline |
| Helpers.ErrorWritersAgree | cmd/web/helpers.go:22-28 | `notFound` is exactly `clientError(404)`; `serverError` writes exactly what `clientError(500)` writes |
| Helpers.ServerError | cmd/web/helpers.go:15-20 | the writer ends in the state `ServerErrorOn` gives |
| Helpers.ClientError | cmd/web/helpers.go:22-24 | the writer ends in the state `ClientErrorOn` gives |
| Helpers.NotFound | cmd/web/helpers.go:26-28 | the writer ends in the state `NotFoundOn` gives |
| Helpers.RenderOn | cmd/web/helpers.go:30-49 | exactly one chunk is appended: the whole page when the page is cached and executes, otherwise only the 500 text, never a partial page; the status is the requested one or 500 |
| Helpers.Render | cmd/web/helpers.go:30-49 | the writer ends in the state `RenderOn` gives |
| Helpers.NewTemplateDataOn | cmd/web/helpers.go:51-58 | the data carries the session's flash and the flash is removed from the session; `IsAuthenticated` mirrors the request; form, snippet and list start empty |
| Helpers.FlashIsSingleUse | cmd/web/helpers.go:54 | a second `newTemplateData` after the first sees no flash |
| Helpers.NewTemplateData | cmd/web/helpers.go:51-58 | the data returned and the new session state are those `NewTemplateDataOn` gives |
| Helpers.DecodePostForm | cmd/web/helpers.go:60-78 | an invalid decoder escalates (a panic); parse and decode errors are returned; otherwise success with the decoded fields |
| Middleware.SecureHeadersOn | cmd/web/middleware.go:11-22 | the five security headers end with one value each; every other header, the status and the body are unchanged |
| Middleware.SecureHeadersIdempotent | cmd/web/middleware.go:13-18 | applying `secureHeaders` twice equals applying it once |
| Middleware.SetSecureHeaders | cmd/web/middleware.go:13-18 | the writer ends in the state `SecureHeadersOn` gives |
| Middleware.AuthenticateOn | cmd/web/middleware.go:79-100 | it answers (a 500) exactly when the id is nonzero and `Exists` fails; otherwise it continues with the response unchanged, and the flag is set exactly when the id is nonzero and `Exists` is true |
| Middleware.AuthenticateRequest | cmd/web/middleware.go:79-100 | the outcome and the writer's state are those `AuthenticateOn` gives |
| Middleware.CsrfCookieIsProtected | cmd/web/middleware.go:70-74 | the CSRF cookie is `HttpOnly`, `Secure` and valid for path / |
| Middleware.CsrfCheckOn | cmd/web/middleware.go:68-77 | it answers with a 400 exactly for an unsafe method whose token is refused; otherwise it continues with request and response unchanged |
| Middleware.CheckCsrf | cmd/web/middleware.go:68-77 | the outcome and the writer's state are those `CsrfCheckOn` gives |
| Middleware.RequireAuthenticationOn | cmd/web/middleware.go:45-55 | it continues exactly when authenticated, and then the response is the old one with `no-store` appended after any earlier `Cache-Control` values, every other header, the status, the written flag and the body unchanged; otherwise it answers with a 303 to /user/login and leaves `Cache-Control` as it was |
| Middleware.RequireAuthenticationGuard | cmd/web/middleware.go:45-55 | the outcome and the writer's state are those `RequireAuthenticationOn` gives |
| Middleware.RequireUnauthenticationOn | cmd/web/middleware.go:57-66 | it continues, with nothing changed, exactly when not authenticated; otherwise it answers with a 303 to / |
| Middleware.RequireUnauthenticationGuard | cmd/web/middleware.go:57-66 | the outcome and the writer's state are those `RequireUnauthenticationOn` gives |
| Middleware.Before | cmd/web/middleware.go:11-100 | stages other than the guards always continue; `secureHeaders` hardens the response; a stage that continues leaves the written flag, the status and the body alone |
| Middleware.After | cmd/web/middleware.go:32-43 | `recoverPanic` stops every panic, turning it into a 500 with `Connection: close`; otherwise the response passes through unchanged |
| Middleware.EnterStage | cmd/web/middleware.go:11-100 | the outcome and the writer's state are those `Before` gives |
| Middleware.LeaveStage | cmd/web/middleware.go:32-43 | the writer's state and the panic flag are those `After` gives |
| Handlers.RenderFormOn | cmd/web/handlers.go:69-72 | a form page takes the flash and shows the form with the given status, or answers 500 when rendering fails; it never panics |
| Handlers.RenderForm | cmd/web/handlers.go:69-72 | writer and session end as `RenderFormOn` gives |
| Handlers.HomeOn | cmd/web/handlers.go:34-45 | a failed `Latest` gives a 500 with the session unchanged; otherwise the flash is taken from the session and nothing else in it changes, and the home page lists exactly the latest snippets |
| Handlers.ServeHome | cmd/web/handlers.go:34-45 | writer and session end as `HomeOn` gives |
| Handlers.UserSignupOn | cmd/web/handlers.go:47-51 | the signup page with status 200, or 500 when rendering fails |
| Handlers.ServeUserSignup | cmd/web/handlers.go:47-51 | writer and session end as `UserSignupOn` gives |
| Handlers.UserSignupPostOn | cmd/web/handlers.go:53-93 | panic exactly on a misconfigured decoder; 400 on a decode error; 422 on failed validation; 422 with an `email` field error on a duplicate email; 500 on another insert error; on success the signup flash and a 303 to /user/login |
| Handlers.ServeUserSignupPost | cmd/web/handlers.go:53-93 | writer, session and panic flag end as `UserSignupPostOn` gives |
| Handlers.UserLoginOn | cmd/web/handlers.go:95-99 | the login page with status 200, or 500 when rendering fails |
| Handlers.ServeUserLogin | cmd/web/handlers.go:95-99 | writer and session end as `UserLoginOn` gives |
| Handlers.UserLoginPostOn | cmd/web/handlers.go:101-144 | 400 or panic on decode failures. 422 with the identity kept on failed validation or bad credentials, the latter adding the non-field error. 500 with the session untouched on another error or a failed renewal. On success a new token, the user id stored and a 303 to /snippet/create |
| Handlers.ServeUserLoginPost | cmd/web/handlers.go:101-144 | writer, session and panic flag end as `UserLoginPostOn` gives |
| Handlers.UserLogoutPostOn | cmd/web/handlers.go:146-157 | a failed renewal gives a 500 with the session (and the user id) untouched; otherwise the session is exactly the renewed one with the user id removed and the logout flash put, and the answer is a 303 to / |
| Handlers.ServeUserLogoutPost | cmd/web/handlers.go:146-157 | writer and session end as `UserLogoutPostOn` gives |
| Handlers.SnippetViewOn | cmd/web/handlers.go:159-182 | 404, with no lookup, for an id that is not an integer or is below 1; 404 on `ErrNoRecord`; 500 on another error; otherwise the flash is taken from the session and nothing else in it changes, and the page shows the snippet fetched |
| Handlers.ServeSnippetView | cmd/web/handlers.go:159-182 | writer and session end as `SnippetViewOn` gives |
| Handlers.SnippetCreateOn | cmd/web/handlers.go:184-192 | the create page, its form pre-filled with `Expires` 365 |
| Handlers.ServeSnippetCreate | cmd/web/handlers.go:184-192 | writer and session end as `SnippetCreateOn` gives |
| Handlers.SnippetCreatePostOn | cmd/web/handlers.go:194-229 | panic exactly on a misconfigured decoder; 400 on either decode error; 422 on failed validation; on success the created flash and a 303 to the new snippet; a failed insert answers 500 and, as written, still stores the created flash |
| Handlers.ServeSnippetCreatePost | cmd/web/handlers.go:194-229 | writer, session and panic flag end as `SnippetCreatePostOn` gives |
| Handlers.FileServerOn | cmd/web/routes.go:17-18 | the status follows `Env.staticFile`: a found file is answered with 200 and its content, a missing one with 404 |
| Handlers.ServeFile | cmd/web/routes.go:17-18 | the writer ends as `FileServerOn` gives |
| Handlers.Handle | cmd/web/handlers.go:34-229 | only the three form-posting handlers panic, only on a misconfigured decoder, and before touching response or session; the file server and not-found handlers leave the session alone |
| Handlers.ServeEndpoint | cmd/web/handlers.go:34-229 | writer, session and panic flag end as `Handle` gives |
| Strconv.Atoi | cmd/web/handlers.go:162 | a string parses exactly when it is an optional sign followed by one or more digits whose value fits a 64-bit `int`, and the result is that value |
| Strconv.AtoiAccepts | cmd/web/handlers.go:162 | "+7", "007", "-0" and "-12" read as 7, 7, 0 and -12 |
| Strconv.AtoiRejects | cmd/web/handlers.go:162 | the empty string, a bare sign, a doubled sign, a trailing letter and a leading space are errors, so such an id gets a 404 |
| Strconv.ItoaAtoiRoundTrip | cmd/web/handlers.go:162 | parsing the decimal text of any 64-bit integer gives it back |
| Strconv.ItoaIsSegment | cmd/web/handlers.go:228 | the decimal text of an id is one nonempty path segment |
| Sessions.Rotate | cmd/web/handlers.go:135 | a renewed token always differs from the current one |
| Sessions.Session.GetInt | cmd/web/middleware.go:81 | nonzero only for a stored int, and then that int |
| Sessions.Session.Put | cmd/web/handlers.go:141 | the key holds the value; every other key and the token are unchanged |
| Sessions.Session.Remove | cmd/web/handlers.go:153 | the key is gone; every other key and the token are unchanged |
| Sessions.Session.Renew | cmd/web/handlers.go:135 | a different token, the same values |
| Sessions.Renewed | cmd/web/handlers.go:135-139 | renewal succeeds exactly when the store yields a token, and then only the token changes |
| Sessions.SessionData.GetInt | cmd/web/middleware.go:81 | the value `Session.GetInt` gives on the current state |
| Sessions.SessionData.Put | cmd/web/handlers.go:141 | the session ends as `Session.Put` gives |
| Sessions.SessionData.Remove | cmd/web/handlers.go:153 | the session ends as `Session.Remove` gives |
| Sessions.SessionData.PopString | cmd/web/helpers.go:54 | returns the stored string and removes the key |
| Sessions.SessionData.RenewToken | cmd/web/handlers.go:135-139 | reports success exactly when a token is drawn; on success the session is renewed, on failure unchanged |
| Http.Response.Error | cmd/web/helpers.go:19 | `http.Error`: the status (unless already written), the text and a newline, a plain-text content type, `nosniff`, and no `Content-Length`; every other header is kept |
| Http.Response.Redirect | cmd/web/middleware.go:48 | `http.Redirect`: the status (unless already written) and `Location`; for GET and HEAD without a content type, `text/html`, and for GET a short link as the body; otherwise no body; every header other than `Location` and `Content-Type` is kept |
| Http.Response.WriteHeader | cmd/web/helpers.go:46 | only the first call sets the status |
| Http.Response.Write | cmd/web/helpers.go:48 | the chunk is appended and the header counts as written |
| Http.ResponseWriter.Set | cmd/web/middleware.go:13 | the writer's state is the `Set` of the old state |
| Http.HeaderAdd | cmd/web/middleware.go:52 | `Header.Add`: the key's earlier values are kept and the new one follows them; every other key is unchanged |
| Http.ResponseWriter.Add | cmd/web/middleware.go:52 | the writer's state is the `Add` of the old state |
| Http.ResponseWriter.WriteHeader | cmd/web/helpers.go:46 | the writer's state is the `WriteHeader` of the old state |
| Http.ResponseWriter.Write | cmd/web/helpers.go:48 | the writer's state is the `Write` of the old state |
| Http.Error | cmd/web/helpers.go:19 | the writer ends as `Response.Error` gives |
| Http.Redirect | cmd/web/middleware.go:48 | the writer ends as `Response.Redirect` gives |
| Templates.Validator.AddFieldError | cmd/web/handlers.go:79 | the field gets the message unless it already has one, which is then kept; every other field keeps its error, and the form is no longer valid |
| Templates.Validator.AddNonFieldError | cmd/web/handlers.go:124 | the message is appended and the form is no longer valid |
| Routes.Match | cmd/web/routes.go:18-33 | a matched path is the pattern filled with the captured value, and the parameters bind exactly that value |
| Routes.FillThenMatch | cmd/web/routes.go:18-33 | a pattern filled with a valid value matches with exactly that value |
| Routes.MatchIffFilled | cmd/web/routes.go:18-33 | a path matches exactly when it is the pattern filled with some valid value |
| Routes.New | cmd/web/routes.go:20 | `alice.New` keeps its stages in order |
| Routes.Append | cmd/web/routes.go:24 | `Append` keeps the base stages first and unchanged, and puts the new ones after them |
| Routes.ThenFunc | cmd/web/routes.go:21 | the route runs the chain's stages in front of the handler |
| Routes.Dynamic | cmd/web/routes.go:20 | the dynamic chain begins with `LoadAndSave` then `noSurf`, and contains `authenticate` only in the corrected revision |
| Routes.Unauthenticated | cmd/web/routes.go:24 | the dynamic stages, unchanged, then `requireUnauthentication` last |
| Routes.Authenticated | cmd/web/routes.go:30 | the dynamic stages, unchanged, then `requireAuthentication` last |
| Routes.StaticRoutes | cmd/web/routes.go:17-18 | the file server is registered with no stage in front of it |
| Routes.DynamicRoutes | cmd/web/routes.go:21-22 | both public pages run the dynamic chain |
| Routes.UnauthenticatedRoutes | cmd/web/routes.go:25-28 | all four signup and login routes run the unauthenticated chain |
| Routes.AuthenticatedRoutes | cmd/web/routes.go:31-33 | all three create and logout routes run the authenticated chain |
| Routes.RouteTable | cmd/web/routes.go:17-33 | ten registrations |
| Routes.FindFrom | cmd/web/routes.go:11-15 | the index found is the first registration from the start index on that serves the method and path; none means none there serves it |
| Routes.AllowHeader | cmd/web/routes.go:11-15 | the `Allow` list of a 405 or OPTIONS answer names GET exactly when GET is registered for the path and was not the method asked for, and likewise POST |
| Routes.Dispatch | cmd/web/routes.go:11-15 | a route is taken exactly when one serves the method and path, and then it is the first such one with its parameters; NotFound exactly when no registration of any method matches the path |
| Routes.MatchDeterminesPattern | cmd/web/routes.go:18-33 | a path can match only the registered pattern its leading segments select |
| Routes.KeysIdentifyEntries | cmd/web/routes.go:18-33 | each registration is identified by its method and pattern |
| Routes.RouteTableUnambiguous | cmd/web/routes.go:18-33 | no two registrations serve the same method and path, so registration order does not matter |
| Routes.TableChains | cmd/web/routes.go:17-33 | every registration runs its handler's group chain: none for files, dynamic for public pages, dynamic then `requireUnauthentication` for signup and login, dynamic then `requireAuthentication` for create and logout |
| Routes.Router.constructor | cmd/web/routes.go:11 | a new router has no registrations and no NotFound handler |
| Routes.Router.Handler | cmd/web/routes.go:18 | the registration is appended; the NotFound handler is kept |
| Routes.Router.SetNotFound | cmd/web/routes.go:13-15 | the NotFound handler is set; the registrations are kept |
| Routes.RegisterDynamic | cmd/web/routes.go:21-22 | the two public routes are appended in order |
| Routes.RegisterUnauthenticated | cmd/web/routes.go:25-28 | the four signup and login routes are appended in order |
| Routes.RegisterAuthenticated | cmd/web/routes.go:31-33 | the three create and logout routes are appended in order |
| Routes.NewRoutes | cmd/web/routes.go:10-33 | the router built is exactly the route table with `notFound` as its NotFound handler |
| Pipeline.Run | cmd/web/routes.go:20-36 | running a chain only extends the trace it was given |
| Pipeline.Step | cmd/web/routes.go:20-36 | a stage records its entry before anything it or the rest of the chain does |
| Pipeline.Invoke | cmd/web/routes.go:20-36 | calling a handler records exactly that call |
| Pipeline.Entries | cmd/web/routes.go:35 | one entry event per stage, in order |
| Pipeline.StandardUnfolds | cmd/web/routes.go:35-36 | every request passes `recoverPanic`, `logRequest` and `secureHeaders`, outermost first, and then reaches the router with the security headers set |
| Pipeline.StandardNeverPanics | cmd/web/routes.go:35-36 | no panic escapes the standard chain |
| Pipeline.ServeChain | cmd/web/routes.go:20-36 | running a chain on the objects leaves them as `Run` gives |
| Pipeline.ServeStage | cmd/web/routes.go:20-36 | running one stage on the objects leaves them as `Step` gives |
| Pipeline.ServeHandler | cmd/web/routes.go:11-15 | calling a handler or the router on the objects leaves them as `Invoke` gives |
| Pipeline.ServeStandard | cmd/web/routes.go:35-36 | serving through the standard chain gives the response, session and trace that `Run` gives, with no panic |
| Pipeline.Exchange | cmd/web/routes.go:35-36 | one request through the handler `routes()` returns never ends in a panic |
| Pipeline.ServeHTTP | cmd/web/routes.go:10-37 | building the router with `routes()` and serving one request gives exactly `Exchange` |
| Routing.ChainTrace | cmd/web/routes.go:20-33 | a chain enters its stages in order, then calls the handler, and records nothing else |
| Routing.EntriesAppend | cmd/web/routes.go:24 | the entries of an appended chain are the base entries followed by the new ones |
| Routing.RoutedTrace | cmd/web/routes.go:35-36 | a routed request's trace is the standard stages, then the route's stages, then the handler call, cut short only by a stage that answers |
| Routing.RouterNotFound | cmd/web/routes.go:13-15 | a path no registration matches goes to `notFound` |
| Routing.StandardNotFound | cmd/web/routes.go:13-15 | through the standard chain, such a path gets the hardened response with `notFound` applied, and the session is unchanged |
| Routing.StandardAnswersNotFound | cmd/web/routes.go:13-15 | on a fresh response, that is a bare 404 "Not Found" |
| Routing.UnregisteredIsNotFound | cmd/web/routes.go:13-15 | any request for a path the table does not register gets a 404 with the "Not Found" text, and the session is untouched |
| Routing.TableRegistrable | cmd/web/routes.go:17-33 | every pattern in the table is one `routes()` registers |
| Routing.PingIsNotRegistered | cmd/web/routes.go:17-33 | /ping is not registered |
| Routing.PingIsNotFound | cmd/web/routes.go:17-33 | a request for /ping, by any method, is answered 404 |
| Routing.DispatchAt | cmd/web/routes.go:18-33 | a request goes to the first registration serving it |
| Routing.StaticDispatch | cmd/web/routes.go:18 | GET /static/… is routed to the file server with the rest of the path as `filepath` |
| Routing.RouterServesBare | cmd/web/routes.go:17-18 | the file-server route calls the file server with no stage in front of it |
| Routing.StandardToFileServer | cmd/web/routes.go:17-18 | through the standard chain, such a route enters no session or CSRF stage, and its status follows `Env.staticFile` (200 or 404) |
| Routing.StaticBypassesSession | cmd/web/routes.go:17-18 | GET /static/… never enters `LoadAndSave` or `noSurf`, leaves the session untouched, and its status follows `Env.staticFile`: 200 for a found file and 404 otherwise |
| Routing.CreatedLocationShowsSnippet | cmd/web/handlers.go:228 | the location a successful create redirects to is routed to `snippetView`, which reads the same id back |
| Identity.FlashKeepsIdentity | cmd/web/handlers.go:90 | storing or taking the flash keeps the token and the user id |
| Identity.HandleKeepsIdentity | cmd/web/handlers.go:34-229 | every handler except `userLoginPost` and `userLogoutPost` keeps the token and the user id |
| Identity.RunKeepsIdentity | cmd/web/handlers.go:135-154 | a chain changes token or user id only if it calls login or logout |
| Identity.StepKeepsIdentity | cmd/web/handlers.go:135-154 | the same for a stage and what follows it |
| Identity.InvokeKeepsIdentity | cmd/web/handlers.go:135-154 | the same for a handler or the router |
| Identity.ExchangeKeepsIdentity | cmd/web/handlers.go:135-154 | a request changes the session's token or user id only by reaching `userLoginPost` or `userLogoutPost` |
| Findings.FlagKept | cmd/web/middleware.go:93-96 | only `authenticate`, for a signed-in user, sets the authentication flag |
| Findings.BlockedChain | cmd/web/middleware.go:45-50 | a chain with `requireAuthentication`, and without an `authenticate` that could set the flag, never calls its handler for an anonymous request |
| Findings.AuthenticatedStages | cmd/web/routes.go:30 | the stages of the authenticated chain in each revision |
| Findings.TableGuarded | cmd/web/routes.go:30-33 | every protected route runs `requireAuthentication`, and the NotFound handler is not protected |
| Findings.SharedChainGuards | cmd/web/routes.go:30-33 | routes that share one guarded chain are guarded |
| Findings.RouteNeverCalls | cmd/web/routes.go:30-33 | a guarded route never calls a protected handler for an anonymous request |
| Findings.RouterNeverCalls | cmd/web/routes.go:30-33 | the router never calls a protected handler for an anonymous request |
| Findings.StandardNeverCalls | cmd/web/routes.go:35-36 | neither does the standard chain around it |
| Findings.ProtectedUnreachableAsWritten | cmd/web/routes.go:20 | as written, no request ever reaches snippet creation or logout |
| Findings.AnonymousKeptOut | cmd/web/routes.go:30-33 | in both revisions, a visitor who is not signed in never reaches snippet creation or logout |
| Findings.SignedInPasses | cmd/web/middleware.go:79-100 | the corrected chain calls the handler for a safe request from a signed-in user |
| Findings.SafePasses | cmd/web/middleware.go:68-77 | `noSurf` lets such a request through to `authenticate` |
| Findings.AuthenticatedPasses | cmd/web/middleware.go:93-98 | `authenticate` sets the flag for a signed-in user, so the guard lets the request through |
| Findings.FlagPasses | cmd/web/middleware.go:52-53 | `requireAuthentication` calls the handler once the flag is set |
| Findings.StageCalls | cmd/web/routes.go:20-33 | a stage that lets the request through keeps every call the rest of the chain makes |
| Findings.CreateFormDispatch | cmd/web/routes.go:31 | GET /snippet/create is routed to `snippetCreate` |
| Findings.StandardReachesCreateForm | cmd/web/routes.go:35-36 | through the standard chain, a signed-in user's safe request reaches that handler |
| Findings.SignedInReachesCreateForm | cmd/web/routes.go:20 | corrected, a signed-in user's GET /snippet/create reaches `snippetCreate` |
| Findings.FailedInsertFlashesSuccess | cmd/web/handlers.go:221-228 | as written, a failed insert answers 500 yet leaves the "created" flash in the session the handler hands back |
| Findings.FailedInsertKeepsSession | cmd/web/handlers.go:221-224 | corrected, a failed insert answers 500 and leaves the session, and so the next page's flash, as it was |
| Hardening.ErrorKeepsHardened | cmd/web/helpers.go:19 | `http.Error` keeps the security headers |
| Hardening.RedirectKeepsHardened | cmd/web/middleware.go:48 | `http.Redirect` keeps them |
| Hardening.RenderKeepsHardened | cmd/web/helpers.go:30-49 | `render` keeps them |
| Hardening.HomeKeepsHardened | cmd/web/handlers.go:34-45 | `home` keeps them |
| Hardening.SignupPostKeepsHardened | cmd/web/handlers.go:53-93 | `userSignupPost` keeps them |
| Hardening.LoginPostKeepsHardened | cmd/web/handlers.go:101-144 | `userLoginPost` keeps them |
| Hardening.LogoutPostKeepsHardened | cmd/web/handlers.go:146-157 | `userLogoutPost` keeps them |
| Hardening.ViewKeepsHardened | cmd/web/handlers.go:159-182 | `snippetView` keeps them |
| Hardening.CreatePostKeepsHardened | cmd/web/handlers.go:194-229 | `snippetCreatePost` keeps them |
| Hardening.FileServerKeepsHardened | cmd/web/routes.go:17-18 | the file server keeps them |
| Hardening.HandleKeepsHardened | cmd/web/handlers.go:34-229 | every handler keeps them |
| Hardening.StageKeepsHardened | cmd/web/middleware.go:32-100 | every stage keeps them, before and after `next` |
| Hardening.SetKeepsHardened | cmd/web/middleware.go:36 | setting any other header keeps them |
| Hardening.AddKeepsHardened | cmd/web/middleware.go:52 | adding any other header keeps them |
| Hardening.RunKeepsHardened | cmd/web/routes.go:20-33 | a whole chain keeps them |
| Hardening.InvokeKeepsHardened | cmd/web/routes.go:11-15 | the router keeps them, including its automatic OPTIONS and 405 answers |
| Hardening.StandardIsHardened | cmd/web/routes.go:35-36 | every response of the standard chain carries the five security headers |
| Hardening.ExchangeIsHardened | cmd/web/middleware.go:11-22 | every response the application sends carries them, whatever the route, handler or error |
| Recovery.RunPanicsUnwritten | cmd/web/helpers.go:70-72 | a chain that panics has written no status and left the session as it was |
| Recovery.InvokePanicsUnwritten | cmd/web/helpers.go:70-72 | the same for a handler or the router |
| Recovery.StandardRecoversPanics | cmd/web/middleware.go:32-43 | a panic below the standard chain becomes a 500 with `Connection: close` and the 500 text, and the session is unchanged |
| Recovery.ExchangeRecoversPanics | cmd/web/middleware.go:32-43 | no request ends in a panic; one whose handler panics gets that 500 |

## Left out

- Logging by `logRequest` and `serverError`, and `debug.Stack`, are output only: the stages pass through unchanged.
- `newTemplateData`'s `CurrentYear` reads the clock, so the template data has no year.
- Template parsing and execution are modelled only as cache hit or miss and execution success or failure (`Env.execution`). The rendered page is a marker carrying the template data.
- The validation rules (`NotBlank`, `Matches`/`EmailRX`, `MinChars`, `MaxChars`, `PermittedInt`) are not modelled. The field errors they produce are a collaborator outcome (`Env.fieldErrors`).
- The users and snippets models (`Latest`, `Get`, `Insert`, `Authenticate`, `Exists`) are collaborator outcomes. The SQL behind them is not part of this model.
- nosurf's token generation and comparison are one verdict (`Env.csrfAccepted`), rejected with nosurf's default empty 400. Its cookie and `Vary` header are not modelled. The base-cookie flags are kept as data (`CSRF_BASE_COOKIE`).
- scs's `LoadAndSave` (loading, saving, commit, the session cookie) and how `RenewToken` generates tokens are not modelled. The request sees its session as a value, and a renewal draws a token from `Env.renewDraw`.
- The model assumes the session manager commits the session after the handler returns, and that header changes made after the status line are kept in the header map, as with a buffered writer. The source fixes no scs version. A version that commits at the first `WriteHeader` would drop the flash `Put` that handlers.go:226 makes after the 500, and the `Location` that handlers.go:228 sets would never be sent.
- httprouter's trailing-slash and fixed-path redirects and its path cleaning are not modelled. Paths are taken as already clean.
- The file server and `StripPrefix` read the filesystem. The outcome is `Env.staticFile`, which has two cases: the file is found (200 with its content) or it is missing (404).
- Handlers.FileServerOn, Routing.StandardToFileServer, Routing.StaticBypassesSession: only those two answers are modelled. `http.FileServer` also sends a 301 for a directory without a trailing slash and for a path ending in /index.html, a 403 or 500 on other open errors, and a 304, 206 or 416 for conditional and range requests.
- Go's `panic`/`recover` mechanism is a `panicked` flag that every stage passes upward until `recoverPanic` handles it.
- routes.go:35 names `secureHeader`, an identifier the package does not define (middleware.go:11 defines `secureHeaders`). The model uses `secureHeaders`, since that is evidently meant.
- The `/ping` handler is not part of this model. handlers_test.go:23-37 expects it to answer 200 "OK", but routes.go registers no such route, so the model follows the route table: `Routing.PingIsNotFound` proves that /ping gets a 404.
- Routes.RouteTable: its own contract states only the table's length. What the table contains is stated by `Routes.TableChains`, `Routes.KeysIdentifyEntries` and `Routes.RouteTableUnambiguous`.
- Concurrency across requests is left out: each request is served alone, and the session store's locking is not modelled.

## Findings

| source | as written | input that shows it | evidently intended | confidence | as-written member | corrected member |
|---|---|---|---|---|---|---|
| cmd/web/routes.go:20 | the dynamic chain is `LoadAndSave, noSurf`, without `authenticate`, so nothing ever sets the authentication flag | a signed-in user (session holds an existing user's id) sends GET /snippet/create: `requireAuthentication` redirects to /user/login, so snippet creation and logout can never be reached | `dynamic := alice.New(app.sessionManager.LoadAndSave, noSurf, app.authenticate)` | high (not executed) | Findings.ProtectedUnreachableAsWritten | Findings.SignedInReachesCreateForm |
| cmd/web/handlers.go:223 | no `return` after `serverError` when `Insert` fails, so the handler goes on to store the "Snippet successfully created!" flash and redirect | a valid POST /snippet/create whose insert fails: the answer is a 500, yet the handler stores the success flash in the session and sets a `Location` header; the next page shows that flash only if the session manager commits the session after the handler returns (see "Left out") | `return` after `app.serverError(w, err)`, leaving the session unchanged | high that the handler runs on; medium that the flash reaches the next page (not executed) | Findings.FailedInsertFlashesSuccess | Findings.FailedInsertKeepsSession |
