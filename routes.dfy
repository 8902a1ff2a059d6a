/** Route.go, Middleware.go and ContextHandlerFunc.go, and the per-route
    handler HandlerBuilder.go builds from them (`buildHandlerForRoute`): the
    route's middleware run in order, each may stop the chain, and the route's
    own handler runs only when every middleware let the request through.

    A middleware's or route's `Handle` is arbitrary Go code on the context.
    Here it is a function of the request and the artifacts set so far that
    yields a script: the context operations it performs, in order, and how it
    finishes (returning, or panicking with a message). A script may contain
    assertions; a failed assertion ends the script the way the usual
    `if !ctx.AssertX(...) { return false }` does. */
module Routes {
  import opened Wrappers
  import opened Text
  import opened Http
  import opened Measured
  import opened Problems
  import opened Contexts

  /** The assertions a handler can make on its context; each one answers the
      request itself when it fails. */
  datatype Guard =
    | ContentTypeGuard(allowedContentTypes: seq<string>)
    | ContentLengthGuard(max: int)
    | MethodGuard(allowedMethods: seq<string>)
    | DependencyGuard(dependencies: seq<string>)
    | JsonBodyGuard(decode: seq<byte> -> Result<Value>, purify: Value -> Option<(string, string)>)

  /** One context operation. */
  datatype Action =
    | PutArtifact(name: string, value: Value)
    | PutHeader(headerName: string, headerValue: string)
    | WriteBody(bytes: seq<byte>)
    | SendStatus(code: int)
    | SendJson(code: int, payload: Payload)
    | SendNotFound(subjectType: string, subject: string)
    | SendInternalServerError(err: Option<string>)
    | Check(guard: Guard)

  /** How a `Handle` finishes: returning (for a middleware, whether the
      request goes on) or panicking with a message. */
  datatype Exit = Return(proceed: bool) | Panic(message: string)

  datatype Step = Step(actions: seq<Action>, exit: Exit)

  /** A middleware's or route's `Handle`, given the request and the
      middleware artifacts at the moment it runs. */
  type Handler = (Request, map<string, Value>) -> Step

  /** `Route`: its method, path, middleware and handler. */
  datatype Route = Route(httpMethod: string, path: string, middleware: seq<Handler>, handle: Handler)

  /** What a handler can change: the artifact map and the response writer. */
  datatype CtxState = CtxState(artifacts: map<string, Value>, out: Meter)

  /** Whether a panic ended the handler. */
  datatype Outcome = Completed | Panicked(message: string)

  // ---------------------------------------------------------------------------
  // Scripts
  // ---------------------------------------------------------------------------

  function GuardVerdict(scope: RequestScope, g: Guard): Verdict {
    match g
    case ContentTypeGuard(allowed) => ContentTypeVerdict(scope, allowed)
    case ContentLengthGuard(max) => ContentLengthVerdict(scope, max)
    case MethodGuard(allowed) => MethodVerdict(scope, allowed)
    case DependencyGuard(dependencies) => ResolveVerdict(scope, dependencies)
    case JsonBodyGuard(decode, purify) => FromJsonVerdict(scope, decode, purify)
  }

  /** One operation: the new state, and false when it was an assertion that
      failed. */
  function ActionEffect(scope: RequestScope, s: CtxState, a: Action): (r: (CtxState, bool))
    ensures !a.Check? ==> r.1
    ensures !a.PutArtifact? ==> r.0.artifacts == s.artifacts
  {
    match a
    case PutArtifact(name, value) => (s.(artifacts := s.artifacts[name := value]), true)
    case PutHeader(name, value) => (s.(out := MeterSetHeader(s.out, name, value)), true)
    case WriteBody(bytes) => (s.(out := MeterWrite(s.out, bytes).0), true)
    case SendStatus(code) => (s.(out := RespondEffect(scope, s.out, code)), true)
    case SendJson(code, payload) => (s.(out := RespondWithJsonEffect(scope, s.out, code, payload)), true)
    case SendNotFound(subjectType, subject) => (s.(out := NotFoundEffect(scope, s.out, subjectType, subject)), true)
    case SendInternalServerError(err) => (s.(out := InternalServerErrorEffect(scope, s.out, err)), true)
    case Check(g) =>
      var (ok, out) := Perform(scope, s.out, GuardVerdict(scope, g));
      (s.(out := out), ok)
  }

  /** A script: its operations in order, up to and including the first
      failed assertion; the flag says whether it ran to its end. */
  function ScriptEffect(scope: RequestScope, s: CtxState, actions: seq<Action>): (CtxState, bool)
    decreases |actions|
  {
    if actions == [] then (s, true)
    else
      var (s1, ok) := ActionEffect(scope, s, actions[0]);
      if ok then ScriptEffect(scope, s1, actions[1..]) else (s1, false)
  }

  /** A step: its script, then its exit; a script cut short by a failed
      assertion returns false. */
  function StepEffect(scope: RequestScope, s: CtxState, step: Step): (CtxState, Exit) {
    var (s1, finished) := ScriptEffect(scope, s, step.actions);
    (s1, if finished then step.exit else Return(false))
  }

  /** Once the writer has recorded a status, no operation changes it: the
      client sees the first status line a handler commits. */
  lemma ActionKeepsRecordedStatus(scope: RequestScope, s: CtxState, a: Action)
    requires s.out.hasWrittenHeaders
    ensures var r := ActionEffect(scope, s, a).0;
      && r.out.hasWrittenHeaders && r.out.statusCode == s.out.statusCode
  {
  }

  lemma {:induction false} ScriptKeepsRecordedStatus(scope: RequestScope, s: CtxState, actions: seq<Action>)
    requires s.out.hasWrittenHeaders
    ensures var r := ScriptEffect(scope, s, actions).0;
      && r.out.hasWrittenHeaders && r.out.statusCode == s.out.statusCode
    decreases |actions|
  {
    if actions != [] {
      ActionKeepsRecordedStatus(scope, s, actions[0]);
      var (s1, ok) := ActionEffect(scope, s, actions[0]);
      if ok {
        ScriptKeepsRecordedStatus(scope, s1, actions[1..]);
      }
    }
  }

  /** A script stops early only at an assertion that failed, and that
      assertion answered the request, so the writer has then recorded a
      status. */
  lemma {:induction false} ScriptStopsOnlyAfterAnswering(scope: RequestScope, s: CtxState, actions: seq<Action>)
    ensures var (r, finished) := ScriptEffect(scope, s, actions);
      !finished ==> r.out.hasWrittenHeaders
    decreases |actions|
  {
    if actions != [] {
      var (s1, ok) := ActionEffect(scope, s, actions[0]);
      if ok {
        ScriptStopsOnlyAfterAnswering(scope, s1, actions[1..]);
      }
    }
  }

  /** Only `SetMiddlewareArtifact` changes the artifacts. */
  lemma {:induction false} ScriptWithoutArtifactsKeepsThem(scope: RequestScope, s: CtxState, actions: seq<Action>)
    requires forall i :: 0 <= i < |actions| ==> !actions[i].PutArtifact?
    ensures ScriptEffect(scope, s, actions).0.artifacts == s.artifacts
    decreases |actions|
  {
    if actions != [] {
      var (s1, ok) := ActionEffect(scope, s, actions[0]);
      if ok {
        ScriptWithoutArtifactsKeepsThem(scope, s1, actions[1..]);
      }
    }
  }

  /** The response operations of the context all go through `Respond`: the
      status line they commit first carries the correlation id. (A raw write
      through the response writer commits an implicit 200 without it.) */
  lemma ResponseOperationsStampCorrelationId(scope: RequestScope, s: CtxState, a: Action)
    requires !a.WriteBody?
    requires !s.out.hasWrittenHeaders && !s.out.wire.committed
    ensures var r := ActionEffect(scope, s, a).0;
      r.out.wire.committed ==>
        CorrelationIdHeader in r.out.wire.sentHeader && r.out.wire.sentHeader[CorrelationIdHeader] == scope.correlationID
  {
    match a
    case SendJson(code, payload) =>
      RespondWithJsonStampsCorrelationId(scope, s.out, code, payload);
    case SendNotFound(subjectType, subject) =>
      RespondWithJsonStampsCorrelationId(scope, s.out, StatusNotFound, ProblemBody(NotFound(scope.config, subjectType, subject)));
    case SendInternalServerError(err) =>
      RespondWithJsonStampsCorrelationId(scope, s.out, StatusInternalServerError, ProblemBody(InternalServerError(scope.config, err)));
    case Check(g) =>
      var v := GuardVerdict(scope, g);
      if v.Reject? {
        RespondWithJsonStampsCorrelationId(scope, s.out, v.code, ProblemBody(v.problem));
      }
    case _ =>
  }

  // ---------------------------------------------------------------------------
  // The route's chain (buildHandlerForRoute)
  // ---------------------------------------------------------------------------

  /** The state after the route's handler, how it ended, and whether the
      route's own handler ran. */
  datatype ChainResult = ChainResult(state: CtxState, outcome: Outcome, handled: bool)

  /** Run `middleware` in order, each seeing the artifacts left by the ones
      before; a panic or a false return ends the chain; the route's handler
      runs after the last middleware. */
  function ChainEffect(scope: RequestScope, s: CtxState, middleware: seq<Handler>, handle: Handler): ChainResult
    decreases |middleware|
  {
    if middleware == [] then
      var (s1, exit) := StepEffect(scope, s, handle(scope.request, s.artifacts));
      ChainResult(s1, if exit.Panic? then Panicked(exit.message) else Completed, true)
    else
      var (s1, exit) := StepEffect(scope, s, middleware[0](scope.request, s.artifacts));
      match exit
      case Panic(message) => ChainResult(s1, Panicked(message), false)
      case Return(proceed) =>
        if proceed then ChainEffect(scope, s1, middleware[1..], handle) else ChainResult(s1, Completed, false)
  }

  /** How each middleware that ran finished, in order. */
  function Decisions(scope: RequestScope, s: CtxState, middleware: seq<Handler>): seq<Exit>
    decreases |middleware|
  {
    if middleware == [] then []
    else
      var (s1, exit) := StepEffect(scope, s, middleware[0](scope.request, s.artifacts));
      if exit == Return(true) then [exit] + Decisions(scope, s1, middleware[1..]) else [exit]
  }

  /** Middleware run in declared order and the chain stops at the first one
      that does not return true: every decision but the last is "go on"; the
      route's handler runs iff every middleware ran and returned true; and a
      panic that the route's handler did not raise was raised by the last
      middleware that ran. */
  lemma ChainStopsAtFirstRefusal(scope: RequestScope, s: CtxState, middleware: seq<Handler>, handle: Handler)
    ensures var d := Decisions(scope, s, middleware);
      var r := ChainEffect(scope, s, middleware, handle);
      && |d| <= |middleware|
      && (middleware != [] ==> |d| > 0)
      && (forall i :: 0 <= i < |d| - 1 ==> d[i] == Return(true))
      && (r.handled <==> |d| == |middleware| && forall i :: 0 <= i < |d| ==> d[i] == Return(true))
      && (r.outcome.Panicked? && !r.handled ==> d[|d| - 1] == Panic(r.outcome.message))
  {
    DecisionsShape(scope, s, middleware);
    ChainHandledIffAllProceed(scope, s, middleware, handle);
    ChainPanicIsLastDecision(scope, s, middleware, handle);
  }

  lemma {:induction false} DecisionsShape(scope: RequestScope, s: CtxState, middleware: seq<Handler>)
    ensures var d := Decisions(scope, s, middleware);
      && |d| <= |middleware|
      && (middleware != [] ==> |d| > 0)
      && (forall i :: 0 <= i < |d| - 1 ==> d[i] == Return(true))
    decreases |middleware|
  {
    if middleware != [] {
      var (s1, exit) := StepEffect(scope, s, middleware[0](scope.request, s.artifacts));
      var d := Decisions(scope, s, middleware);
      if exit == Return(true) {
        DecisionsShape(scope, s1, middleware[1..]);
        var rest := Decisions(scope, s1, middleware[1..]);
        assert d == [exit] + rest;
        forall i | 0 <= i < |d| - 1
          ensures d[i] == Return(true)
        {
          if i > 0 {
            assert d[i] == rest[i - 1];
          }
        }
      } else {
        assert d == [exit];
      }
    }
  }

  /** One middleware step of `Decisions` and `ChainEffect`, stated once. */
  lemma ChainStep(scope: RequestScope, s: CtxState, middleware: seq<Handler>, handle: Handler)
    requires middleware != []
    ensures var (s1, exit) := StepEffect(scope, s, middleware[0](scope.request, s.artifacts));
      var d := Decisions(scope, s, middleware);
      var r := ChainEffect(scope, s, middleware, handle);
      && (exit == Return(true) ==>
            d == [exit] + Decisions(scope, s1, middleware[1..]) && r == ChainEffect(scope, s1, middleware[1..], handle))
      && (exit != Return(true) ==>
            d == [exit] && !r.handled && (r.outcome.Panicked? ==> exit == Panic(r.outcome.message)))
  {
  }

  lemma {:induction false} ChainHandledIffAllProceed(scope: RequestScope, s: CtxState, middleware: seq<Handler>, handle: Handler)
    ensures var d := Decisions(scope, s, middleware);
      ChainEffect(scope, s, middleware, handle).handled <==> |d| == |middleware| && forall i :: 0 <= i < |d| ==> d[i] == Return(true)
    decreases |middleware|
  {
    if middleware != [] {
      ChainStep(scope, s, middleware, handle);
      var (s1, exit) := StepEffect(scope, s, middleware[0](scope.request, s.artifacts));
      var d := Decisions(scope, s, middleware);
      if exit == Return(true) {
        ChainHandledIffAllProceed(scope, s1, middleware[1..], handle);
        var rest := Decisions(scope, s1, middleware[1..]);
        if forall i :: 0 <= i < |rest| ==> rest[i] == Return(true) {
          forall i | 0 <= i < |d|
            ensures d[i] == Return(true)
          {
            if i > 0 {
              assert d[i] == rest[i - 1];
            }
          }
        }
        if forall i :: 0 <= i < |d| ==> d[i] == Return(true) {
          forall i | 0 <= i < |rest|
            ensures rest[i] == Return(true)
          {
            assert d[i + 1] == rest[i];
          }
        }
      } else {
        assert d[0] != Return(true);
      }
    }
  }

  lemma {:induction false} ChainPanicIsLastDecision(scope: RequestScope, s: CtxState, middleware: seq<Handler>, handle: Handler)
    ensures var d := Decisions(scope, s, middleware);
      var r := ChainEffect(scope, s, middleware, handle);
      r.outcome.Panicked? && !r.handled ==> |d| > 0 && d[|d| - 1] == Panic(r.outcome.message)
    decreases |middleware|
  {
    if middleware != [] {
      ChainStep(scope, s, middleware, handle);
      var (s1, exit) := StepEffect(scope, s, middleware[0](scope.request, s.artifacts));
      if exit == Return(true) {
        ChainPanicIsLastDecision(scope, s1, middleware[1..], handle);
        var rest := Decisions(scope, s1, middleware[1..]);
        var r := ChainEffect(scope, s, middleware, handle);
        if r.outcome.Panicked? && !r.handled {
          assert Decisions(scope, s, middleware)[|rest|] == rest[|rest| - 1];
        }
      }
    }
  }

  /** A route without middleware is just its handler. */
  lemma ChainWithoutMiddleware(scope: RequestScope, s: CtxState, handle: Handler)
    ensures ChainEffect(scope, s, [], handle).handled
    ensures ChainEffect(scope, s, [], handle).state == StepEffect(scope, s, handle(scope.request, s.artifacts)).0
  {
  }

  /** Once the writer has recorded a status, nothing later in the chain
      changes it. */
  lemma {:induction false} ChainKeepsRecordedStatus(scope: RequestScope, s: CtxState, middleware: seq<Handler>, handle: Handler)
    requires s.out.hasWrittenHeaders
    ensures var r := ChainEffect(scope, s, middleware, handle).state;
      r.out.hasWrittenHeaders && r.out.statusCode == s.out.statusCode
    decreases |middleware|
  {
    var step := if middleware == [] then handle(scope.request, s.artifacts) else middleware[0](scope.request, s.artifacts);
    ScriptKeepsRecordedStatus(scope, s, step.actions);
    if middleware != [] {
      var (s1, exit) := StepEffect(scope, s, step);
      if exit == Return(true) {
        ChainKeepsRecordedStatus(scope, s1, middleware[1..], handle);
      }
    }
  }

  // ---------------------------------------------------------------------------
  // Running it on a context
  // ---------------------------------------------------------------------------

  function StateOf(ctx: Context): CtxState
    reads ctx, ctx.w, ctx.w.w
  {
    CtxState(ctx.middlewareArtifacts, ctx.w.State())
  }

  method CheckGuard(ctx: Context, g: Guard) returns (ok: bool)
    modifies ctx.w, ctx.w.w
    ensures (ok, ctx.w.State()) == Perform(ctx.Scope(), old(ctx.w.State()), GuardVerdict(ctx.Scope(), g))
  {
    match g
    case ContentTypeGuard(allowed) =>
      ok := ctx.AssertContentType(allowed);
    case ContentLengthGuard(max) =>
      ok := ctx.AssertContentLength(max);
    case MethodGuard(allowed) =>
      ok := ctx.AssertMethod(allowed);
    case DependencyGuard(dependencies) =>
      ok := ctx.Resolve(dependencies);
    case JsonBodyGuard(decode, purify) =>
      var model;
      ok, model := ctx.FromJSON(decode, purify);
  }

  method RunAction(ctx: Context, a: Action) returns (ok: bool)
    modifies ctx, ctx.w, ctx.w.w
    ensures (StateOf(ctx), ok) == ActionEffect(ctx.Scope(), old(StateOf(ctx)), a)
  {
    ok := true;
    match a
    case PutArtifact(name, value) =>
      ctx.SetMiddlewareArtifact(name, value);
    case PutHeader(name, value) =>
      ctx.w.SetHeader(name, value);
    case WriteBody(bytes) =>
      var _ := ctx.w.Write(bytes);
    case SendStatus(code) =>
      ctx.Respond(code);
    case SendJson(code, payload) =>
      ctx.RespondWithJSON(code, payload);
    case SendNotFound(subjectType, subject) =>
      ctx.NotFound(subjectType, subject);
    case SendInternalServerError(err) =>
      ctx.InternalServerError(err);
    case Check(g) =>
      ok := CheckGuard(ctx, g);
  }

  /** A handler's body: its operations until one fails. */
  method RunScript(ctx: Context, actions: seq<Action>) returns (finished: bool)
    modifies ctx, ctx.w, ctx.w.w
    ensures (StateOf(ctx), finished) == ScriptEffect(ctx.Scope(), old(StateOf(ctx)), actions)
  {
    ghost var goal := ScriptEffect(ctx.Scope(), StateOf(ctx), actions);
    for i := 0 to |actions|
      invariant goal == ScriptEffect(ctx.Scope(), StateOf(ctx), actions[i..])
    {
      assert actions[i..][1..] == actions[i + 1..];
      var ok := RunAction(ctx, actions[i]);
      if !ok {
        return false;
      }
    }
    return true;
  }

  method RunStep(ctx: Context, step: Step) returns (exit: Exit)
    modifies ctx, ctx.w, ctx.w.w
    ensures (StateOf(ctx), exit) == StepEffect(ctx.Scope(), old(StateOf(ctx)), step)
  {
    var finished := RunScript(ctx, step.actions);
    exit := if finished then step.exit else Return(false);
  }

  /** `buildHandlerForRoute(route)` applied to a context. A panic is
      reported as the `Panicked` outcome instead of unwinding. */
  method RunRoute(ctx: Context, route: Route) returns (outcome: Outcome, handled: bool)
    modifies ctx, ctx.w, ctx.w.w
    ensures ChainResult(StateOf(ctx), outcome, handled) == ChainEffect(ctx.Scope(), old(StateOf(ctx)), route.middleware, route.handle)
  {
    ghost var goal := ChainEffect(ctx.Scope(), StateOf(ctx), route.middleware, route.handle);
    var i := 0;
    while i < |route.middleware|
      invariant 0 <= i <= |route.middleware|
      invariant goal == ChainEffect(ctx.Scope(), StateOf(ctx), route.middleware[i..], route.handle)
    {
      assert route.middleware[i..][1..] == route.middleware[i + 1..];
      var exit := RunStep(ctx, route.middleware[i](ctx.r, ctx.middlewareArtifacts));
      if exit.Panic? {
        return Panicked(exit.message), false;
      }
      if !exit.proceed {
        return Completed, false;
      }
      i := i + 1;
    }
    var exit := RunStep(ctx, route.handle(ctx.r, ctx.middlewareArtifacts));
    outcome := if exit.Panic? then Panicked(exit.message) else Completed;
    handled := true;
  }
}
