/**
 * The route request adapter of lib/testkit/src/test-route-adapter.ts, which
 * stands in for a router library: its raw request context is a plain object
 * holding the method, URI, headers, parameters, session and body, and
 * sending a response stores it on that object under `response`.
 */
module TestRouteAdapter {
  import opened Wrappers
  import opened Values
  import opened Types
  import Js
  import Http
  import opened Steps
  import opened Context
  import opened LaneSemantics
  import Route

  /** The fields `makeRequestContext` fills in when its argument leaves them out. */
  const RequestDefaults: map<string, Value> :=
    map["method" := Str("GET"), "headers" := Obj(map[]), "params" := Obj(map[]), "session" := Obj(map[]), "body" := Null]

  /** makeRequestContext(args): the defaults, overridden by every field the argument has. */
  function MakeRequestContext(args: map<string, Value>): (raw: Value)
    ensures raw.Obj? && raw.fields.Keys == RequestDefaults.Keys + args.Keys
    ensures forall k :: k in args ==> Js.Get(raw, k) == args[k]
    ensures forall k :: k in RequestDefaults && k !in args ==> Js.Get(raw, k) == RequestDefaults[k]
  {
    Obj(RequestDefaults + args)
  }

  /** A request context made with no more than a URI is a GET with empty headers, parameters and session and a null body. */
  lemma DefaultRequestContext(uri: string)
    ensures var raw := MakeRequestContext(map["uri" := Str(uri)]);
      && Js.Get(raw, "method") == Str("GET") && Js.Get(raw, "uri") == Str(uri)
      && Js.Get(raw, "headers") == Obj(map[]) && Js.Get(raw, "params") == Obj(map[])
      && Js.Get(raw, "session") == Obj(map[]) && Js.Get(raw, "body") == Null
      && Js.Get(raw, "response") == Undefined
  {
    var raw := MakeRequestContext(map["uri" := Str(uri)]);
    assert "response" !in raw.fields;
  }

  /** extractRequest(ctx, route): method and URI of the route, the rest from the raw context. */
  function ExtractRequest(raw: Value, info: Route.RouteInfo): (request: Value)
    ensures Js.Get(request, "method") == Str(info.verb) && Js.Get(request, "uri") == Str(info.path)
    ensures forall k :: k in ["params", "headers", "session", "body"] ==> Js.Get(request, k) == Js.Get(raw, k)
  {
    Obj(map["method" := Str(info.verb), "uri" := Str(info.path),
            "params" := Js.Get(raw, "params"), "headers" := Js.Get(raw, "headers"),
            "session" := Js.Get(raw, "session"), "body" := Js.Get(raw, "body")])
  }

  /** buildExecutionMetadata: nothing. */
  function ExecutionMetadata(raw: Value, info: Route.RouteInfo): (metadata: map<string, Value>)
    ensures metadata == map[]
  {
    map[]
  }

  /** buildInitialStepMetadata: no descriptions and an empty journal. */
  function InitialStepMetadata(raw: Value, request: Value): (metadata: StepMetadata)
    ensures metadata.inputDescription.None? && metadata.outputDescription.None? && metadata.journal == []
  {
    StepMetadata(None, None, [])
  }

  /**
   * sendResponse(ctx, response): the response stored on the raw context.
   * The raw context is an object by its type; the model leaves any other
   * value as it is.
   */
  function SendResponse(raw: Value, response: Value, c: Ctx): (sentRaw: Value)
    ensures raw.Obj? ==> sentRaw.Obj? && sentRaw.fields == raw.fields["response" := response]
    ensures !raw.Obj? ==> sentRaw == raw
  {
    if raw.Obj? then Obj(raw.fields["response" := response]) else raw
  }

  /** testRouteAdapter. */
  const TestAdapter := Route.RouteRequestAdapter("TestRouter", "test-router-init", "test-router-finalize",
    ExtractRequest, ExecutionMetadata, InitialStepMetadata, SendResponse)

  /** The initial step of a request through the test adapter, with the descriptions the route fills in. */
  lemma TestInitialStep(raw: Value, info: Route.RouteInfo)
    ensures var s := Route.RouteInitialStep(TestAdapter, raw, ExtractRequest(raw, info));
      && s.name == "test-router-init" && s.input == raw && s.output == ExtractRequest(raw, info)
      && s.metadata.inputDescription == Some("TestRouter Context")
      && s.metadata.outputDescription == Some(Route.DefaultRequestDescription)
      && s.metadata.journal == []
  {
    var md := TestAdapter.buildInitialStepMetadata(raw, ExtractRequest(raw, info));
    assert md == StepMetadata(None, None, []);
    assert TestAdapter.name + " Context" == "TestRouter Context";
  }

  /** A route with an empty lane is finished on the context it starts with. */
  lemma EmptyLaneRun(env: Env, info: Route.RouteInfo, raw: Value)
    ensures Route.RouteRun(env, TestAdapter, Route.PayloadAsIs, Route.ErrorAsIs, info, [], raw)
      == Route.RouteFinish(TestAdapter, Route.PayloadAsIs, Route.ErrorAsIs, raw, Route.RouteStart(TestAdapter, info, [], raw), None)
  {
    var c := Route.RouteStart(TestAdapter, info, [], raw);
    assert RunSteps(env, c.lane, c, 0) == (c, None);
  }

  /**
   * A route with an empty lane and the router's default formatters answers
   * 200 with the extracted request as its body; the response is stored on
   * the raw context and the context ends finalized.
   */
  lemma EmptyRouteEchoesRequest(env: Env, info: Route.RouteInfo, raw: Value)
    requires raw.Obj?
    ensures var h := Route.RouteRun(env, TestAdapter, Route.PayloadAsIs, Route.ErrorAsIs, info, [], raw);
      && Js.Get(h.response, "statusCode") == Num(200)
      && Js.Get(h.response, "body") == ExtractRequest(raw, info)
      && Js.Get(h.raw, "response") == h.response
      && h.ctx.state == Ended(Finalized)
      && h.ctx.steps == []
  {
    EmptyLaneRun(env, info, raw);
    AnswersPayload(raw, Route.RouteStart(TestAdapter, info, [], raw));
  }

  /**
   * A lane that completed with the metadata the test adapter gives answers
   * 200 with the final payload under the router's default formatters.
   */
  lemma AnswersPayload(raw: Value, d: Ctx)
    requires raw.Obj? && d.metadata == map[]
    ensures var h := Route.RouteFinish(TestAdapter, Route.PayloadAsIs, Route.ErrorAsIs, raw, d, None);
      && Js.Get(h.response, "statusCode") == Num(200)
      && Js.Get(h.response, "body") == d.payload
      && Js.Get(h.raw, "response") == h.response
      && h.ctx.state == Ended(Finalized)
      && h.ctx.steps == d.steps
  {
    Http.CanonicalStatusFallback(map[], 200);
    Route.SucceededRequest(TestAdapter, Route.PayloadAsIs, Route.ErrorAsIs, raw, d);
    Route.BodyFromFormatter(TestAdapter, Route.PayloadAsIs, Route.ErrorAsIs, raw, d, None);
  }

  /** One turn of the runner on a literal step finalizes its record with the literal. */
  lemma LiteralStepOnce(env: Env, c: Ctx, value: Value)
    ensures StepOnce(env, LiteralStep(value), c) == (Succeed(Begin(LiteralStep(value), c), value), None)
  {
    var c1 := Begin(LiteralStep(value), c);
    assert StepSem(env, LiteralStep(value), c1) == (c1, Ok(value));
  }

  /** A lane of one literal step ends with that step's record finalized, and nothing thrown. */
  lemma LiteralLaneRun(env: Env, c: Ctx, value: Value)
    requires c.lane == [LiteralStep(value)]
    ensures RunLane(env, c) == (Succeed(Begin(LiteralStep(value), c), value), None)
  {
    LiteralStepOnce(env, c, value);
    var d := Succeed(Begin(LiteralStep(value), c), value);
    assert RunSteps(env, c.lane, d, 1) == (d, None);
  }

  /**
   * A route whose lane only answers a literal value answers 200 with that
   * value, recording one finalized step with the request as its input.
   */
  lemma LiteralRouteAnswers(env: Env, info: Route.RouteInfo, raw: Value, value: Value)
    requires raw.Obj?
    ensures var h := Route.RouteRun(env, TestAdapter, Route.PayloadAsIs, Route.ErrorAsIs, info, [LiteralStep(value)], raw);
      && Js.Get(h.response, "statusCode") == Num(200)
      && Js.Get(h.response, "body") == value
      && Js.Get(h.raw, "response") == h.response
      && h.ctx.state == Ended(Finalized)
      && |h.ctx.steps| == 1 && h.ctx.steps[0].state == Finalized
      && h.ctx.steps[0].input == ExtractRequest(raw, info) && h.ctx.steps[0].output == value
  {
    var c := Route.RouteStart(TestAdapter, info, [LiteralStep(value)], raw);
    LiteralLaneRun(env, c, value);
    var d := Succeed(Begin(LiteralStep(value), c), value);
    AnswersPayload(raw, d);
  }
}
