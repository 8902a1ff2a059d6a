/** HandlerBuilder.go: registering routes by normalised path, building the
    per-path dispatcher (method table and allowed-method list), and the
    per-request wrapper that measures the response, turns a panic into a 500
    when nothing has been answered yet, and logs one line per request. */
module Builder {
  import opened Wrappers
  import opened Text
  import opened Http
  import opened Measured
  import opened Problems
  import opened Units
  import opened Contexts
  import opened Routes

  // ---------------------------------------------------------------------------
  // purifyPath
  // ---------------------------------------------------------------------------

  /** `purifyPath`: backslashes become slashes, then surrounding white space
      goes. */
  function PurifyPath(path: string): string {
    TrimSpace(SlashBackslashes(path))
  }

  /** A purified path has no backslash and no white space at either end,
      and purifying it again changes nothing. */
  lemma PurifyPathIsClean(path: string)
    ensures var p := PurifyPath(path);
      && '\\' !in p
      && (p == [] || (!IsSpace(p[0]) && !IsSpace(p[|p| - 1])))
      && PurifyPath(p) == p
  {
    var p := PurifyPath(path);
    if '\\' in p {
      TrimSpaceKeepsCharacters(SlashBackslashes(path), '\\');
    }
    SlashBackslashesNoop(p);
    TrimSpaceIdempotent(SlashBackslashes(path));
  }

  // ---------------------------------------------------------------------------
  // The builder's state machine (Use, Build, assertNotAlreadyBuilt)
  // ---------------------------------------------------------------------------

  const AlreadyBuiltPanic := "a HandlerBuilder can not be used after Build has been called"

  datatype BuilderState = BuilderState(routesByPath: map<string, seq<Route>>, hasBeenBuilt: bool)

  function RoutesAt(routesByPath: map<string, seq<Route>>, path: string): seq<Route> {
    if path in routesByPath then routesByPath[path] else []
  }

  /** `Use(route)`. */
  function UseEffect(b: BuilderState, route: Route): (BuilderState, Outcome) {
    if b.hasBeenBuilt then (b, Panicked(AlreadyBuiltPanic))
    else
      var path := PurifyPath(route.path);
      (b.(routesByPath := b.routesByPath[path := RoutesAt(b.routesByPath, path) + [route]]), Completed)
  }

  /** What `buildHandlerForPath` captures: the handler for each exact method
      string and the allowed-method list. */
  datatype PathTable = PathTable(handlerByMethod: map<string, Route>, allowedMethods: seq<string>)

  /** The table `buildHandlerForPath` fills, one route at a time. */
  function TableOf(routes: seq<Route>): PathTable
    decreases |routes|
  {
    if routes == [] then PathTable(map[], [])
    else
      var t := TableOf(routes[..|routes| - 1]);
      var route := routes[|routes| - 1];
      PathTable(t.handlerByMethod[route.httpMethod := route], t.allowedMethods + [route.httpMethod])
  }

  /** What `Build` returns: the dispatcher of every registered path (the
      catch-all is added when a request is routed, see `Lookup`). */
  datatype Router = Router(tables: map<string, PathTable>)

  function RouterOf(routesByPath: map<string, seq<Route>>): Router {
    Router(map path | path in routesByPath :: TableOf(routesByPath[path]))
  }

  /** `Build()`. */
  function BuildEffect(b: BuilderState): (BuilderState, Outcome, Option<Router>) {
    if b.hasBeenBuilt then (b, Panicked(AlreadyBuiltPanic), None)
    else (b.(hasBeenBuilt := true), Completed, Some(RouterOf(b.routesByPath)))
  }

  /** `Use` appends the route to the list of its purified path and leaves
      every other path alone. */
  lemma UseAppendsToItsPath(b: BuilderState, route: Route, other: string)
    requires !b.hasBeenBuilt
    ensures var (b1, outcome) := UseEffect(b, route);
      && outcome == Completed && !b1.hasBeenBuilt
      && RoutesAt(b1.routesByPath, PurifyPath(route.path)) == RoutesAt(b.routesByPath, PurifyPath(route.path)) + [route]
      && (other != PurifyPath(route.path) ==> RoutesAt(b1.routesByPath, other) == RoutesAt(b.routesByPath, other))
      && b1.routesByPath.Keys == b.routesByPath.Keys + {PurifyPath(route.path)}
  {
  }

  /** `Build` succeeds once; after it, `Use` and `Build` panic and change
      nothing. */
  lemma BuildIsFinal(b: BuilderState, route: Route)
    requires !b.hasBeenBuilt
    ensures var (built, outcome, router) := BuildEffect(b);
      && outcome == Completed && router == Some(RouterOf(b.routesByPath))
      && built.hasBeenBuilt && built.routesByPath == b.routesByPath
      && UseEffect(built, route) == (built, Panicked(AlreadyBuiltPanic))
      && BuildEffect(built) == (built, Panicked(AlreadyBuiltPanic), None)
  {
  }

  /** Registering `routes` one after another. */
  function UseAll(b: BuilderState, routes: seq<Route>): BuilderState
    decreases |routes|
  {
    if routes == [] then b
    else UseEffect(UseAll(b, routes[..|routes| - 1]), routes[|routes| - 1]).0
  }

  /** The routes whose path purifies to `path`, in order. */
  function RoutesFor(routes: seq<Route>, path: string): seq<Route>
    decreases |routes|
  {
    if routes == [] then []
    else
      var last := routes[|routes| - 1];
      RoutesFor(routes[..|routes| - 1], path) + (if PurifyPath(last.path) == path then [last] else [])
  }

  /** After registering `routes` on a fresh builder, each path holds exactly
      the routes whose path purifies to it, in registration order, and a path
      is registered exactly when some route purifies to it. */
  lemma {:induction false} UseAllGroupsByPath(routes: seq<Route>, path: string)
    ensures var b := UseAll(BuilderState(map[], false), routes);
      && !b.hasBeenBuilt
      && RoutesAt(b.routesByPath, path) == RoutesFor(routes, path)
      && (path in b.routesByPath <==> RoutesFor(routes, path) != [])
    decreases |routes|
  {
    if routes != [] {
      UseAllGroupsByPath(routes[..|routes| - 1], path);
    }
  }

  /** Some route purifies to `path` exactly when `RoutesFor` is not empty. */
  lemma {:induction false} RoutesForNonEmpty(routes: seq<Route>, path: string)
    ensures RoutesFor(routes, path) != [] <==> exists i :: 0 <= i < |routes| && PurifyPath(routes[i].path) == path
    decreases |routes|
  {
    if routes != [] {
      var init := routes[..|routes| - 1];
      RoutesForNonEmpty(init, path);
      if exists i :: 0 <= i < |init| && PurifyPath(init[i].path) == path {
        var i :| 0 <= i < |init| && PurifyPath(init[i].path) == path;
        assert routes[i] == init[i];
      }
      if exists i :: 0 <= i < |routes| && PurifyPath(routes[i].path) == path {
        var i :| 0 <= i < |routes| && PurifyPath(routes[i].path) == path;
        if i < |init| {
          assert init[i] == routes[i];
        }
      }
    }
  }

  /** The table lists every route's method in registration order, duplicates
      included; the method table has exactly those methods, and for each it
      holds the last route registered with it. */
  lemma TableOfMethods(routes: seq<Route>)
    ensures var t := TableOf(routes);
      && |t.allowedMethods| == |routes|
      && (forall i :: 0 <= i < |routes| ==> t.allowedMethods[i] == routes[i].httpMethod)
      && (forall m :: m in t.handlerByMethod <==> m in t.allowedMethods)
      && (forall i :: 0 <= i < |routes| && (forall j :: i < j < |routes| ==> routes[j].httpMethod != routes[i].httpMethod) ==>
            t.handlerByMethod[routes[i].httpMethod] == routes[i])
  {
    TableOfAllowedMethods(routes);
    TableOfHandlers(routes);
  }

  lemma {:induction false} TableOfAllowedMethods(routes: seq<Route>)
    ensures var t := TableOf(routes);
      && |t.allowedMethods| == |routes|
      && (forall i :: 0 <= i < |routes| ==> t.allowedMethods[i] == routes[i].httpMethod)
      && (forall m :: m in t.handlerByMethod <==> m in t.allowedMethods)
    decreases |routes|
  {
    if routes != [] {
      var n := |routes| - 1;
      var init := routes[..n];
      TableOfAllowedMethods(init);
      var t0 := TableOf(init);
      var t := TableOf(routes);
      assert t.allowedMethods == t0.allowedMethods + [routes[n].httpMethod];
      assert t.handlerByMethod == t0.handlerByMethod[routes[n].httpMethod := routes[n]];
      forall i | 0 <= i < n
        ensures t.allowedMethods[i] == routes[i].httpMethod
      {
        assert init[i] == routes[i];
      }
    }
  }

  lemma {:induction false} TableOfHandlers(routes: seq<Route>)
    ensures var t := TableOf(routes);
      forall i :: 0 <= i < |routes| && (forall j :: i < j < |routes| ==> routes[j].httpMethod != routes[i].httpMethod) ==>
        routes[i].httpMethod in t.handlerByMethod && t.handlerByMethod[routes[i].httpMethod] == routes[i]
    decreases |routes|
  {
    if routes != [] {
      var n := |routes| - 1;
      var init := routes[..n];
      TableOfHandlers(init);
      var t0 := TableOf(init);
      var t := TableOf(routes);
      assert t.handlerByMethod == t0.handlerByMethod[routes[n].httpMethod := routes[n]];
      forall i | 0 <= i < |routes| && (forall j :: i < j < |routes| ==> routes[j].httpMethod != routes[i].httpMethod)
        ensures routes[i].httpMethod in t.handlerByMethod && t.handlerByMethod[routes[i].httpMethod] == routes[i]
      {
        if i < n {
          assert init[i] == routes[i];
          assert routes[n].httpMethod != routes[i].httpMethod;
          forall j | i < j < n
            ensures init[j].httpMethod != init[i].httpMethod
          {
            assert init[j] == routes[j];
          }
        }
      }
    }
  }

  // ---------------------------------------------------------------------------
  // The per-path dispatcher (buildHandlerForPath) and the catch-all
  // ---------------------------------------------------------------------------

  /** The message of the runtime panic raised by calling a nil handler. */
  const NilHandlerPanic := "runtime error: invalid memory address or nil pointer dereference"

  /** The dispatcher: `AssertMethod` over the allowed list (which ignores
      case), then the handler registered under the exact method string. */
  function DispatchEffect(scope: RequestScope, s: CtxState, table: PathTable): ChainResult {
    var (ok, out) := AssertMethodEffect(scope, s.out, table.allowedMethods);
    if !ok then ChainResult(s.(out := out), Completed, false)
    else if scope.request.httpMethod in table.handlerByMethod then
      var route := table.handlerByMethod[scope.request.httpMethod];
      ChainEffect(scope, s, route.middleware, route.handle)
    else ChainResult(s, Panicked(NilHandlerPanic), false)
  }

  /** What the router hands a request to. */
  datatype ContextHandler = PathHandler(table: PathTable) | CatchAll

  /** Routing: the dispatcher of the path the router matched, or the
      catch-all when it matched none. */
  function Lookup(router: Router, matched: Option<string>): ContextHandler {
    if matched.Some? && matched.value in router.tables then PathHandler(router.tables[matched.value]) else CatchAll
  }

  const PathSubject := "path"

  function HandlerEffect(scope: RequestScope, s: CtxState, h: ContextHandler): ChainResult {
    match h
    case PathHandler(table) => DispatchEffect(scope, s, table)
    case CatchAll => ChainResult(s.(out := NotFoundEffect(scope, s.out, PathSubject, scope.request.path)), Completed, false)
  }

  /** A method outside the allowed list is answered with 405 and nothing
      else runs: no middleware, no handler, no artifact. */
  lemma DisallowedMethodRunsNothing(scope: RequestScope, s: CtxState, table: PathTable)
    requires !MethodAccepted(scope.request.httpMethod, table.allowedMethods)
    ensures var r := DispatchEffect(scope, s, table);
      && !r.handled && r.outcome == Completed && r.state.artifacts == s.artifacts
      && r.state.out == RespondWithJsonEffect(scope, s.out, StatusMethodNotAllowed,
           ProblemBody(MethodNotAllowed(scope.config, scope.request.httpMethod, table.allowedMethods)))
  {
  }

  /** A request whose method is registered exactly runs the chain of the
      last route registered with that method. */
  lemma RegisteredMethodRunsLastRoute(scope: RequestScope, s: CtxState, routes: seq<Route>, i: nat)
    requires i < |routes| && routes[i].httpMethod == scope.request.httpMethod
    requires forall j :: i < j < |routes| ==> routes[j].httpMethod != routes[i].httpMethod
    ensures DispatchEffect(scope, s, TableOf(routes)) == ChainEffect(scope, s, routes[i].middleware, routes[i].handle)
  {
    var t := TableOf(routes);
    TableOfMethods(routes);
    assert t.allowedMethods[i] == scope.request.httpMethod;
    MethodMatchIgnoresCase(scope.request.httpMethod, t.allowedMethods);
  }

  /** The method check ignores case but the table lookup does not: a GET
      route asked with method "get" passes the check and then calls a
      missing handler, which panics. */
  lemma LowercaseMethodFindsNoHandler(scope: RequestScope, s: CtxState, route: Route)
    requires route.httpMethod == "GET" && scope.request.httpMethod == "get"
    ensures DispatchEffect(scope, s, TableOf([route])) == ChainResult(s, Panicked(NilHandlerPanic), false)
  {
    var t := TableOf([route]);
    assert [route][..0] == [];
    assert TableOf([route][..0]) == PathTable(map[], []);
    assert t.allowedMethods == ["GET"];
    assert t.handlerByMethod.Keys == {"GET"};
    assert "get" != "GET";
    assert ToUpper("get") == "GET";
    assert ToUpper("get") == ToUpper(t.allowedMethods[0]);
  }

  // ---------------------------------------------------------------------------
  // The per-request wrapper (buildHandlerFromRequest)
  // ---------------------------------------------------------------------------

  /** One access-log line: the raw recorded status (0 when none was
      written), the floored duration, the friendly size and the path. */
  datatype LogEntry = LogEntry(statusCode: int, duration: int, size: string, path: string)

  datatype Served = Served(wire: Wire, entry: LogEntry)

  /** The writer after the recovery step: a panic is answered with a 500
      only when the handler had not written headers. */
  function Recover(scope: RequestScope, outcome: Outcome, out: Meter): Meter {
    if outcome.Panicked? && !out.hasWrittenHeaders then
      InternalServerErrorEffect(scope, out, Some(outcome.message))
    else out
  }

  /** One request through the wrapper: a fresh measured writer over the
      transport's writer `wire`, a context with no artifacts, the handler,
      the recovery step and the log line. The writer is created at clock
      reading `startTime` and the log line is written at `endTime`. */
  function ServeEffect(scope: RequestScope, h: ContextHandler, wire: Wire, startTime: int, endTime: int): Served {
    var r := HandlerEffect(scope, CtxState(map[], Fresh(wire)), h);
    var out := Recover(scope, r.outcome, r.state.out);
    Served(out.wire, LogEntry(out.statusCode, FloorDuration(endTime - startTime), FriendlySize(out.volume), scope.request.path))
  }

  /** A panic raised before anything was answered reaches the client as a
      500, whatever the encoder does with the envelope. */
  lemma PanicBeforeAnswerIs500(scope: RequestScope, h: ContextHandler, wire: Wire, startTime: int, endTime: int)
    requires !wire.committed
    requires var r := HandlerEffect(scope, CtxState(map[], Fresh(wire)), h);
      r.outcome.Panicked? && !r.state.out.hasWrittenHeaders && !r.state.out.wire.committed
    ensures var served := ServeEffect(scope, h, wire, startTime, endTime);
      && served.wire.committed && served.wire.status == StatusInternalServerError
      && served.entry.statusCode == StatusInternalServerError
  {
    var r := HandlerEffect(scope, CtxState(map[], Fresh(wire)), h);
    RespondWithJsonOnFreshWriter(scope, r.state.out, StatusInternalServerError,
      ProblemBody(InternalServerError(scope.config, Some(r.outcome.message))));
  }

  /** A panic raised after headers were written is swallowed: the client
      gets what the handler had sent. */
  lemma PanicAfterAnswerIsSwallowed(scope: RequestScope, h: ContextHandler, wire: Wire, startTime: int, endTime: int)
    requires HandlerEffect(scope, CtxState(map[], Fresh(wire)), h).state.out.hasWrittenHeaders
    ensures ServeEffect(scope, h, wire, startTime, endTime).wire == HandlerEffect(scope, CtxState(map[], Fresh(wire)), h).state.out.wire
  {
  }

  /** A path the router did not match is answered by `NotFound("path",
      path)`: 404 when the envelope encodes, and the envelope's detail quotes
      the path. */
  lemma UnmatchedPathIsNotFound(scope: RequestScope, router: Router, wire: Wire, startTime: int, endTime: int)
    requires !wire.committed
    requires scope.marshal(ProblemBody(NotFound(scope.config, PathSubject, scope.request.path))).Ok?
    ensures var served := ServeEffect(scope, Lookup(router, None), wire, startTime, endTime);
      && served.wire.status == StatusNotFound && served.entry.statusCode == StatusNotFound
  {
    RespondWithJsonOnFreshWriter(scope, Fresh(wire), StatusNotFound, ProblemBody(NotFound(scope.config, PathSubject, scope.request.path)));
  }

  /** The log line reads the raw status field: a route whose handler only
      writes a body makes the client see an implicit 200 while the log says
      0. */
  lemma LogShowsRawStatus(scope: RequestScope, route: Route, wire: Wire, startTime: int, endTime: int, bytes: seq<byte>)
    requires !wire.committed
    requires route.httpMethod == scope.request.httpMethod && route.middleware == []
    requires route.handle(scope.request, map[]) == Step([WriteBody(bytes)], Return(true))
    ensures var served := ServeEffect(scope, PathHandler(TableOf([route])), wire, startTime, endTime);
      && served.wire.committed && served.wire.status == StatusOK
      && served.entry.statusCode == 0
  {
    var s := CtxState(map[], Fresh(wire));
    RegisteredMethodRunsLastRoute(scope, s, [route], 0);
    var r := HandlerEffect(scope, s, PathHandler(TableOf([route])));
    assert r == ChainEffect(scope, s, [], route.handle);
    var actions := [WriteBody(bytes)];
    assert ScriptEffect(scope, s, actions) == ScriptEffect(scope, s.(out := MeterWrite(s.out, bytes).0), actions[1..]);
    assert r.state.out == MeterWrite(Fresh(wire), bytes).0;
  }

  // ---------------------------------------------------------------------------
  // The log line agrees with what the client received
  // ---------------------------------------------------------------------------

  lemma TracksAction(scope: RequestScope, s: CtxState, a: Action, base: Wire)
    requires Tracks(s.out, base)
    ensures Tracks(ActionEffect(scope, s, a).0.out, base)
  {
    match a
    case PutArtifact(_, _) =>
    case PutHeader(name, value) => TracksApply(s.out, base, SetHeaderCall(name, value));
    case WriteBody(bytes) => TracksApply(s.out, base, WriteCall(bytes));
    case SendStatus(code) => TracksRespond(scope, s.out, code, base);
    case SendJson(code, payload) => TracksRespondWithJson(scope, s.out, code, payload, base);
    case SendNotFound(subjectType, subject) =>
      TracksRespondWithJson(scope, s.out, StatusNotFound, ProblemBody(NotFound(scope.config, subjectType, subject)), base);
    case SendInternalServerError(err) =>
      TracksRespondWithJson(scope, s.out, StatusInternalServerError, ProblemBody(InternalServerError(scope.config, err)), base);
    case Check(g) => TracksGuard(scope, s.out, g, base);
  }

  lemma TracksGuard(scope: RequestScope, m: Meter, g: Guard, base: Wire)
    requires Tracks(m, base)
    ensures Tracks(Perform(scope, m, GuardVerdict(scope, g)).1, base)
  {
    var v := GuardVerdict(scope, g);
    if v.Reject? {
      TracksRespondWithJson(scope, m, v.code, ProblemBody(v.problem), base);
    }
  }

  lemma TracksRespond(scope: RequestScope, m: Meter, code: int, base: Wire)
    requires Tracks(m, base)
    ensures Tracks(RespondEffect(scope, m, code), base)
  {
    var m1 := MeterSetHeader(m, CorrelationIdHeader, scope.correlationID);
    TracksApply(m, base, SetHeaderCall(CorrelationIdHeader, scope.correlationID));
    TracksApply(m1, base, WriteHeaderCall(code));
  }

  lemma TracksRespondWithJson(scope: RequestScope, m: Meter, code: int, payload: Payload, base: Wire)
    requires Tracks(m, base)
    ensures Tracks(RespondWithJsonEffect(scope, m, code, payload), base)
  {
    var (status, raw) := Serialize(scope, code, payload);
    var withType := MeterSetHeader(m, ContentTypeHeader, JsonContentType);
    var withLength := MeterSetHeader(withType, ContentLengthHeader, NatToString(|raw|));
    TracksApply(m, base, SetHeaderCall(ContentTypeHeader, JsonContentType));
    TracksApply(withType, base, SetHeaderCall(ContentLengthHeader, NatToString(|raw|)));
    TracksRespond(scope, withLength, status, base);
    TracksApply(RespondEffect(scope, withLength, status), base, WriteCall(raw));
  }

  lemma {:induction false} TracksScript(scope: RequestScope, s: CtxState, actions: seq<Action>, base: Wire)
    requires Tracks(s.out, base)
    ensures Tracks(ScriptEffect(scope, s, actions).0.out, base)
    decreases |actions|
  {
    if actions != [] {
      TracksAction(scope, s, actions[0], base);
      var (s1, ok) := ActionEffect(scope, s, actions[0]);
      if ok {
        TracksScript(scope, s1, actions[1..], base);
      }
    }
  }

  lemma {:induction false} TracksChain(scope: RequestScope, s: CtxState, middleware: seq<Handler>, handle: Handler, base: Wire)
    requires Tracks(s.out, base)
    ensures Tracks(ChainEffect(scope, s, middleware, handle).state.out, base)
    decreases |middleware|
  {
    var step := if middleware == [] then handle(scope.request, s.artifacts) else middleware[0](scope.request, s.artifacts);
    TracksScript(scope, s, step.actions, base);
    if middleware != [] {
      var (s1, exit) := StepEffect(scope, s, step);
      if exit == Return(true) {
        TracksChain(scope, s1, middleware[1..], handle, base);
      }
    }
  }

  lemma TracksHandler(scope: RequestScope, s: CtxState, h: ContextHandler, base: Wire)
    requires Tracks(s.out, base)
    ensures Tracks(HandlerEffect(scope, s, h).state.out, base)
  {
    match h
    case CatchAll =>
      TracksRespondWithJson(scope, s.out, StatusNotFound, ProblemBody(NotFound(scope.config, PathSubject, scope.request.path)), base);
    case PathHandler(table) =>
      var v := MethodVerdict(scope, table.allowedMethods);
      if v.Reject? {
        TracksRespondWithJson(scope, s.out, v.code, ProblemBody(v.problem), base);
      } else if scope.request.httpMethod in table.handlerByMethod {
        var route := table.handlerByMethod[scope.request.httpMethod];
        TracksChain(scope, s, route.middleware, route.handle, base);
      }
  }

  /** The log line tells the truth about the response: its size is the
      friendly form of the number of body bytes the client received, and a
      nonzero logged status is the one status the wrapper forwarded to the
      transport, exactly once; a zero means it forwarded none. */
  lemma LogMatchesWire(scope: RequestScope, h: ContextHandler, wire: Wire, startTime: int, endTime: int)
    ensures var served := ServeEffect(scope, h, wire, startTime, endTime);
      && served.entry.size == FriendlySize(|served.wire.body| - |wire.body|)
      && served.entry.path == scope.request.path
      && served.entry.duration == FloorDuration(endTime - startTime)
      && (served.entry.statusCode != 0 ==> served.wire.headerWrites == wire.headerWrites + [served.entry.statusCode])
  {
    TracksServe(scope, h, wire);
  }

  lemma TracksServe(scope: RequestScope, h: ContextHandler, wire: Wire)
    ensures var r := HandlerEffect(scope, CtxState(map[], Fresh(wire)), h);
      Tracks(Recover(scope, r.outcome, r.state.out), wire)
  {
    var s := CtxState(map[], Fresh(wire));
    TracksFresh(wire);
    TracksHandler(scope, s, h, wire);
    var r := HandlerEffect(scope, s, h);
    if r.outcome.Panicked? && !r.state.out.hasWrittenHeaders {
      TracksRespondWithJson(scope, r.state.out, StatusInternalServerError, ProblemBody(InternalServerError(scope.config, Some(r.outcome.message))), wire);
    }
  }

  // ---------------------------------------------------------------------------
  // The builder and the wrapper as the source has them
  // ---------------------------------------------------------------------------

  /** The logger the wrapper prints to: the lines it received, in order. */
  class Logger {
    var lines: seq<LogEntry>

    constructor ()
      ensures lines == []
    {
      lines := [];
    }

    method Printf(entry: LogEntry)
      modifies this
      ensures lines == old(lines) + [entry]
    {
      lines := lines + [entry];
    }
  }

  /** `buildHandlerForPath(path, routes)`. */
  method BuildHandlerForPath(routes: seq<Route>) returns (table: PathTable)
    ensures table == TableOf(routes)
  {
    var handlerByMethod: map<string, Route> := map[];
    var allowedMethods: seq<string> := [];
    for i := 0 to |routes|
      invariant PathTable(handlerByMethod, allowedMethods) == TableOf(routes[..i])
    {
      assert routes[..i + 1][..i] == routes[..i];
      var route := routes[i];
      handlerByMethod := handlerByMethod[route.httpMethod := route];
      allowedMethods := allowedMethods + [route.httpMethod];
    }
    assert routes[..|routes|] == routes;
    table := PathTable(handlerByMethod, allowedMethods);
  }

  /** The per-path dispatcher applied to a context. */
  method Dispatch(ctx: Context, table: PathTable) returns (outcome: Outcome, handled: bool)
    modifies ctx, ctx.w, ctx.w.w
    ensures ChainResult(StateOf(ctx), outcome, handled) == DispatchEffect(ctx.Scope(), old(StateOf(ctx)), table)
  {
    var ok := ctx.AssertMethod(table.allowedMethods);
    if !ok {
      return Completed, false;
    }
    if ctx.r.httpMethod !in table.handlerByMethod {
      return Panicked(NilHandlerPanic), false;
    }
    outcome, handled := RunRoute(ctx, table.handlerByMethod[ctx.r.httpMethod]);
  }

  method RunHandler(ctx: Context, h: ContextHandler) returns (outcome: Outcome, handled: bool)
    modifies ctx, ctx.w, ctx.w.w
    ensures ChainResult(StateOf(ctx), outcome, handled) == HandlerEffect(ctx.Scope(), old(StateOf(ctx)), h)
  {
    match h
    case PathHandler(table) =>
      outcome, handled := Dispatch(ctx, table);
    case CatchAll =>
      ctx.NotFound(PathSubject, ctx.r.path);
      outcome, handled := Completed, false;
  }

  /** The function `buildHandlerFromRequest` returns, serving one request.
      The correlation id and the forked container's resolver are parameters,
      as are the two clock readings. */
  method ServeRequest(config: Config, marshal: Marshal, resolve: Resolver, correlationID: string,
                      logger: Logger, h: ContextHandler, w: ResponseSink, r: Request, startTime: int, endTime: int)
    modifies w, logger
    ensures var served := ServeEffect(RequestScope(r, config, correlationID, marshal, resolve), h, old(w.State()), startTime, endTime);
      w.State() == served.wire && logger.lines == old(logger.lines) + [served.entry]
  {
    var mrw := new MeasuredResponseWriter(w, startTime);
    var ctx := new Context(mrw, r, resolve, config, marshal, correlationID);
    HandleAndRecover(ctx, h);
    LogRequest(logger, mrw, r.path, endTime);
  }

  /** The handler followed by the deferred recovery. */
  method HandleAndRecover(ctx: Context, h: ContextHandler)
    modifies ctx, ctx.w, ctx.w.w
    ensures var run := HandlerEffect(ctx.Scope(), old(StateOf(ctx)), h);
      ctx.w.State() == Recover(ctx.Scope(), run.outcome, run.state.out)
  {
    var outcome, handled := RunHandler(ctx, h);
    RecoverPanic(ctx, outcome);
  }

  /** The deferred log line, printed at clock reading `now`. */
  method LogRequest(logger: Logger, mrw: MeasuredResponseWriter, path: string, now: int)
    modifies logger
    ensures logger.lines == old(logger.lines) + [LogEntry(mrw.statusCode, FloorDuration(now - mrw.startTime), FriendlySize(mrw.volume), path)]
  {
    var size := ByteSizeToFriendlyString(mrw.volume);
    logger.Printf(LogEntry(mrw.statusCode, mrw.Duration(now), size, path));
  }

  /** The deferred recovery: answer a panic with a 500 unless headers were
      written. */
  method RecoverPanic(ctx: Context, outcome: Outcome)
    modifies ctx.w, ctx.w.w
    ensures ctx.w.State() == Recover(ctx.Scope(), outcome, old(ctx.w.State()))
  {
    if outcome.Panicked? && !ctx.w.HasWrittenHeaders() {
      ctx.InternalServerError(Some(outcome.message));
    }
  }

  /** `HandlerBuilder`. */
  class HandlerBuilder {
    const config: Config
    const logger: Logger
    var routesByPath: map<string, seq<Route>>
    var hasBeenBuilt: bool

    function State(): BuilderState
      reads this
    {
      BuilderState(routesByPath, hasBeenBuilt)
    }

    /** `NewHandlerBuilder(c, logger, config)`. */
    constructor (logger: Logger, config: Config)
      ensures this.logger == logger && this.config == config
      ensures State() == BuilderState(map[], false)
    {
      this.logger := logger;
      this.config := config;
      routesByPath := map[];
      hasBeenBuilt := false;
    }

    /** `Use(route)`; the panic of `assertNotAlreadyBuilt` is the
        `Panicked` outcome. */
    method Use(route: Route) returns (outcome: Outcome)
      modifies this
      ensures (State(), outcome) == UseEffect(old(State()), route)
    {
      if hasBeenBuilt {
        return Panicked(AlreadyBuiltPanic);
      }
      var path := PurifyPath(route.path);
      var existing := if path in routesByPath then routesByPath[path] else [];
      routesByPath := routesByPath[path := existing + [route]];
      return Completed;
    }

    /** `Build()`. */
    method Build() returns (outcome: Outcome, router: Option<Router>)
      modifies this
      ensures (State(), outcome, router) == BuildEffect(old(State()))
    {
      if hasBeenBuilt {
        return Panicked(AlreadyBuiltPanic), None;
      }
      hasBeenBuilt := true;
      var tables: map<string, PathTable> := map[];
      var remaining := routesByPath.Keys;
      while remaining != {}
        invariant routesByPath == old(routesByPath) && hasBeenBuilt
        invariant remaining <= routesByPath.Keys
        invariant tables.Keys == routesByPath.Keys - remaining
        invariant forall path :: path in tables ==> tables[path] == TableOf(routesByPath[path])
        decreases remaining
      {
        var path :| path in remaining;
        var table := BuildHandlerForPath(routesByPath[path]);
        tables := tables[path := table];
        remaining := remaining - {path};
      }
      assert tables == RouterOf(routesByPath).tables;
      return Completed, Some(Router(tables));
    }
  }
}
