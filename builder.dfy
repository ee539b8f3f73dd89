/**
 * The fluent lane builder of core/src/lane/builder.ts: every registration
 * method appends exactly one step to the lane it was made for and hands back
 * a builder over the same lane; the destination builder installs a
 * destination's adapter.
 *
 * The steps the registration methods build are pure functions of their
 * arguments (below), so that what a registered step does once it runs can be
 * stated against the step semantics.
 */
module Builder {
  import opened Wrappers
  import opened Values
  import opened Types
  import Js
  import Http
  import Transform
  import Validate
  import opened Steps
  import opened Context
  import Destinations
  import LaneSemantics

  /** A `Lane`: the step list every builder of the lane appends to. */
  class Lane {
    var steps: seq<Step>

    constructor(steps: seq<Step>)
      ensures this.steps == steps
    {
      this.steps := steps;
    }
  }

  // ---------------------------------------------------------------------
  // The steps the builder registers

  const InvalidValidatorMessage := "Invalid validator step configuration."

  /** `Boolean(arg)` of a validate argument: a function is truthy, an object by JavaScript's rules. */
  predicate ArgTruthy(arg: ValidatorArg)
  {
    arg.ValidatorFunction? || Js.Truthy(arg.schema)
  }

  /** A validate argument given as a string path. */
  predicate IsPathArg(arg: ValidatorArg)
  {
    arg.ValidatorObject? && arg.schema.Str?
  }

  /** An omitted validate argument. */
  predicate IsAbsent(arg: ValidatorArg)
  {
    arg.ValidatorObject? && arg.schema.Undefined?
  }

  /**
   * validate(arg1, arg2): a truthy second argument needs a path as the first;
   * without a second argument the first is the validator and there is no
   * target path; otherwise the second is the validator and the first its path.
   */
  function ValidateStepOf(arg1: ValidatorArg, arg2: ValidatorArg): (r: Result<Step, Thrown>)
    ensures r.Err? <==> ArgTruthy(arg2) && !IsPathArg(arg1)
    ensures r.Err? ==> r.error == Throw(SimpleHodrError(InvalidValidatorMessage))
    ensures IsAbsent(arg2) ==> r == Ok(ValidateStep(arg1, None))
    ensures r.Ok? && !IsAbsent(arg2) ==> r.value.ValidateStep? && r.value.validator == arg2
    ensures r.Ok? && !IsAbsent(arg2) && IsPathArg(arg1) ==> r.value.targetPath == Some(arg1.schema.s)
  {
    if ArgTruthy(arg2) && !IsPathArg(arg1) then Err(Throw(SimpleHodrError(InvalidValidatorMessage)))
    else if IsAbsent(arg2) then Ok(ValidateStep(arg1, None))
    else Ok(ValidateStep(arg2, if IsPathArg(arg1) then Some(arg1.schema.s) else None))
  }

  /** With a path and a validator, validate registers that validator with that target path. */
  lemma ValidateWithPath(path: string, validator: ValidatorArg)
    requires ArgTruthy(validator)
    ensures ValidateStepOf(ValidatorObject(Str(path)), validator) == Ok(ValidateStep(validator, Some(path)))
  {
  }

  /** A validator object with a truthy second argument but no path is refused whatever it is. */
  lemma ValidateRefusesNonPath(arg1: ValidatorArg, arg2: ValidatorArg)
    requires ArgTruthy(arg2) && (arg1.ValidatorFunction? || !arg1.schema.Str?)
    ensures ValidateStepOf(arg1, arg2).Err?
    ensures FromThrown(ValidateStepOf(arg1, arg2).error).message == InvalidValidatorMessage
  {
  }

  /** The predicate of `expectValue`: whether the value is neither null nor undefined. */
  function IsValue(v: Value, ctx: ContextView, atoms: map<string, Value>): (r: UserOutcome)
    ensures r.result.Ok? && r.result.value.Bool? && r.journal == []
    ensures Js.Truthy(r.result.value) <==> !Js.IsNullish(v)
  {
    UserOutcome(Ok(Bool(!v.Null? && !v.Undefined?)), [])
  }

  const ExpectValueName := "expect-value"

  /** expectValue(errorCode): an expectation named `expect-value` that the payload is a value. */
  function ExpectValueStep(errorCode: ErrorCodeArg): (s: Step)
    ensures s.EnsureStep? && s.name == ExpectValueName && s.condition == PredicateFunction(IsValue)
    ensures s.internalErrorCode == InternalErrorCodeOf(errorCode) && s.httpErrorCode == HttpErrorCodeOf(errorCode)
  {
    NewEnsureStep(PredicateFnArg(IsValue), errorCode, Some(ExpectValueName)).value
  }

  /**
   * An `expectValue` step passes a payload other than null and undefined on
   * unchanged, and fails a nullish one with the expectation error.
   */
  lemma ExpectValueOutcome(env: LaneSemantics.Env, errorCode: ErrorCodeArg, c: Ctx)
    requires LaneSemantics.InStep(c)
    ensures var (d, r) := LaneSemantics.StepSem(env, ExpectValueStep(errorCode), c);
      && d == c
      && (r.Ok? <==> !Js.IsNullish(c.payload))
      && (r.Ok? ==> r.value == c.payload)
      && (r.Err? ==> r.error == Throw(Expectation(InternalErrorCodeOf(errorCode), HttpErrorCodeOf(errorCode))))
  {
    var s := ExpectValueStep(errorCode);
    assert LaneSemantics.StepSem(env, s, c) == LaneSemantics.EnsureSem(s.condition, s.internalErrorCode, s.httpErrorCode, c);
    assert LaneSemantics.EnsureVerdict(s.condition, c) == LaneSemantics.Apply(c, IsValue(c.payload, View(c), c.atoms));
  }

  /** A `literal` step yields its constant whatever the context holds, and changes nothing. */
  lemma LiteralIgnoresPayload(env: LaneSemantics.Env, value: Value, c: Ctx)
    requires LaneSemantics.InStep(c)
    ensures LaneSemantics.StepSem(env, LiteralStep(value), c) == (c, Ok(value))
    ensures StepName(LiteralStep(value)) == "literal"
  {
  }

  /** `params ?? {}`: the caller's parameters, or none. */
  function ParamsOrEmpty(params: Option<Http.RequestParameters>): Http.RequestParameters
  {
    if params.Some? then params.value else Http.RequestParameters(Undefined, Undefined, Undefined)
  }

  /**
   * The call step of an HTTP verb method: `Object.assign(params ?? {}, { method })`,
   * the caller's parameters with the verb as their method.
   */
  function VerbCall(verb: string, destination: string, path: string, params: Option<Http.RequestParameters>): (s: Step)
    ensures s.CallStep? && s.destination == destination && s.path == path && s.params.Some?
    ensures s.params.value.verb == Str(verb)
    ensures params.Some? ==> s.params.value.pathParams == params.value.pathParams && s.params.value.body == params.value.body
    ensures params.None? ==> s.params.value.pathParams == Undefined && s.params.value.body == Undefined
  {
    CallStep(destination, path, Some(ParamsOrEmpty(params).(verb := Str(verb))))
  }

  /** A request built for a verb call carries that verb, whatever method the caller's parameters named. */
  lemma VerbCallSendsVerb(verb: string, destination: string, path: string, params: Option<Http.RequestParameters>,
                          a: Destinations.HttpAdapter, c: Ctx)
    requires CurrentValid(c)
    requires Destinations.BuildRequest(a, c, path, VerbCall(verb, destination, path, params).params).1.Ok?
    ensures Destinations.BuildRequest(a, c, path, VerbCall(verb, destination, path, params).params).1.value.verb == Str(verb)
  {
    Destinations.BuildRequestShape(a, c, path, VerbCall(verb, destination, path, params).params);
  }

  /** `httpStatusMatcher(200)`. */
  const HttpOkPatterns := [Validate.ExactStatus(200)]

  /** `httpStatusMatcher(new HttpStatusRange(200, 220))`. */
  const HttpSuccessPatterns := [Validate.RangeStatus(Validate.HttpStatusRange(200, 220))]

  /** `expectHttpOk` accepts a response exactly when its status is 200. */
  lemma HttpOkAcceptsOnly200(payload: Value)
    ensures Validate.MatcherOutcome(payload, HttpOkPatterns).Ok? <==> Js.Get(payload, "statusCode") == Num(200)
    ensures Validate.MatcherOutcome(payload, HttpOkPatterns).Ok? ==> Validate.MatcherOutcome(payload, HttpOkPatterns).value == payload
  {
    assert Validate.Accepted(Js.Get(payload, "statusCode"), HttpOkPatterns) <==> Validate.MatchStatus(Js.Get(payload, "statusCode"), HttpOkPatterns[0]);
  }

  /** `expectHttpSuccess` accepts a numeric status exactly when it lies in 200..220, both ends included. */
  lemma HttpSuccessAcceptsRange(payload: Value, status: int)
    requires Js.Get(payload, "statusCode") == Num(status)
    ensures Validate.MatcherOutcome(payload, HttpSuccessPatterns).Ok? <==> 200 <= status <= 220
  {
    assert Validate.Accepted(Num(status), HttpSuccessPatterns) <==> Validate.MatchStatus(Num(status), HttpSuccessPatterns[0]);
    Validate.MatchStatusNumbers(status, HttpSuccessPatterns[0]);
  }

  /** `extractResponseBody(path)` yields `extractPath(payload.body, path)` for a response object. */
  lemma ResponseBodyExtracted(env: LaneSemantics.Env, path: Option<Transform.PathRef>, c: Ctx)
    requires LaneSemantics.InStep(c) && c.payload.Obj?
    ensures LaneSemantics.StepSem(env, ExtractBodyStep(path), c) == (c, Ok(Transform.ExtractPath(Js.Get(c.payload, "body"), path)))
    ensures StepName(ExtractBodyStep(path)) == "extract-http-body"
  {
  }

  // ---------------------------------------------------------------------
  // The builders

  /**
   * A `LaneBuilder` and its `HttpResponseLaneBuilder` refinement in one
   * class: the refinement only adds registration methods.
   */
  class LaneBuilder {
    const lane: Lane

    constructor(lane: Lane)
      ensures this.lane == lane
    {
      this.lane := lane;
    }

    /** Appends one step at the end of the lane. */
    method Push(s: Step)
      modifies lane
      ensures lane.steps == old(lane.steps) + [s]
    {
      lane.steps := lane.steps + [s];
    }

    /** extract(directive), returning a new builder over the same lane. */
    method Extract(directive: Transform.Directive) returns (b: LaneBuilder)
      modifies lane
      ensures lane.steps == old(lane.steps) + [ExtractStep(directive)]
      ensures fresh(b) && b.lane == lane
    {
      Push(ExtractStep(directive));
      b := new LaneBuilder(lane);
    }

    /** transform(arg1, arg2): a step constructor that throws registers nothing. */
    method Transform(arg1: TransformArg, arg2: TransformArg) returns (r: Result<LaneBuilder, Thrown>)
      modifies lane
      ensures NewTransformStep(arg1, arg2).Ok? ==>
        && lane.steps == old(lane.steps) + [NewTransformStep(arg1, arg2).value]
        && r.Ok? && fresh(r.value) && r.value.lane == lane
      ensures NewTransformStep(arg1, arg2).Err? ==>
        lane.steps == old(lane.steps) && r == Err(NewTransformStep(arg1, arg2).error)
    {
      match NewTransformStep(arg1, arg2)
      case Err(t) =>
        r := Err(t);
      case Ok(s) =>
        Push(s);
        var b := new LaneBuilder(lane);
        r := Ok(b);
    }

    /** validate(arg1, arg2), with `ValidatorObject(Undefined)` for an omitted second argument. */
    method Validate(arg1: ValidatorArg, arg2: ValidatorArg) returns (r: Result<LaneBuilder, Thrown>)
      modifies lane
      ensures ValidateStepOf(arg1, arg2).Ok? ==>
        lane.steps == old(lane.steps) + [ValidateStepOf(arg1, arg2).value] && r == Ok(this)
      ensures ValidateStepOf(arg1, arg2).Err? ==>
        lane.steps == old(lane.steps) && r == Err(ValidateStepOf(arg1, arg2).error)
    {
      if ArgTruthy(arg2) && !IsPathArg(arg1) {
        r := Err(Throw(SimpleHodrError(InvalidValidatorMessage)));
        return;
      }
      if IsAbsent(arg2) {
        Push(ValidateStep(arg1, None));
      } else {
        Push(ValidateStep(arg2, if IsPathArg(arg1) then Some(arg1.schema.s) else None));
      }
      r := Ok(this);
    }

    /** expect(pred, errorCode): a predicate text that does not parse registers nothing. */
    method Expect(pred: PredicateArg, errorCode: ErrorCodeArg) returns (r: Result<LaneBuilder, Thrown>)
      modifies lane
      ensures NewEnsureStep(pred, errorCode, None).Ok? ==>
        lane.steps == old(lane.steps) + [NewEnsureStep(pred, errorCode, None).value] && r == Ok(this)
      ensures NewEnsureStep(pred, errorCode, None).Err? ==>
        lane.steps == old(lane.steps) && r == Err(NewEnsureStep(pred, errorCode, None).error)
    {
      match NewEnsureStep(pred, errorCode, None)
      case Err(t) =>
        r := Err(t);
      case Ok(s) =>
        Push(s);
        r := Ok(this);
    }

    /** expectValue(errorCode). */
    method ExpectValue(errorCode: ErrorCodeArg) returns (self: LaneBuilder)
      modifies lane
      ensures lane.steps == old(lane.steps) + [ExpectValueStep(errorCode)]
      ensures self == this
    {
      Push(ExpectValueStep(errorCode));
      self := this;
    }

    /** literal(value). */
    method Literal(value: Value) returns (self: LaneBuilder)
      modifies lane
      ensures lane.steps == old(lane.steps) + [LiteralStep(value)]
      ensures self == this
    {
      Push(LiteralStep(value));
      self := this;
    }

    /** sequence(steps). */
    method Sequence(steps: seq<Step>) returns (self: LaneBuilder)
      modifies lane
      ensures lane.steps == old(lane.steps) + [SequenceStep(steps)]
      ensures self == this
    {
      Push(SequenceStep(steps));
      self := this;
    }

    /**
     * parallel(steps): the steps are handed to a ParallelStep constructor
     * that takes them as its root, so the step it registers has no lanes.
     */
    method Parallel(steps: seq<Step>) returns (self: LaneBuilder)
      modifies lane
      ensures lane.steps == old(lane.steps) + [UndefinedParallelStep]
      ensures self == this
    {
      Push(UndefinedParallelStep);
      self := this;
    }

    /** _httpStep(method, destination, path, params): a call step and a new response builder over the lane. */
    method HttpStep(verb: string, destination: string, path: string, params: Option<Http.RequestParameters>) returns (b: LaneBuilder)
      modifies lane
      ensures lane.steps == old(lane.steps) + [VerbCall(verb, destination, path, params)]
      ensures fresh(b) && b.lane == lane
    {
      Push(VerbCall(verb, destination, path, params));
      b := new LaneBuilder(lane);
    }

    /** httpGet(destination, path, params). */
    method HttpGet(destination: string, path: string, params: Option<Http.RequestParameters>) returns (b: LaneBuilder)
      modifies lane
      ensures lane.steps == old(lane.steps) + [VerbCall("GET", destination, path, params)]
      ensures fresh(b) && b.lane == lane
    {
      b := HttpStep("GET", destination, path, params);
    }

    /** httpPost(destination, path, params). */
    method HttpPost(destination: string, path: string, params: Option<Http.RequestParameters>) returns (b: LaneBuilder)
      modifies lane
      ensures lane.steps == old(lane.steps) + [VerbCall("POST", destination, path, params)]
      ensures fresh(b) && b.lane == lane
    {
      b := HttpStep("POST", destination, path, params);
    }

    /** httpPut(destination, path, params). */
    method HttpPut(destination: string, path: string, params: Option<Http.RequestParameters>) returns (b: LaneBuilder)
      modifies lane
      ensures lane.steps == old(lane.steps) + [VerbCall("PUT", destination, path, params)]
      ensures fresh(b) && b.lane == lane
    {
      b := HttpStep("PUT", destination, path, params);
    }

    /** httpPatch(destination, path, params). */
    method HttpPatch(destination: string, path: string, params: Option<Http.RequestParameters>) returns (b: LaneBuilder)
      modifies lane
      ensures lane.steps == old(lane.steps) + [VerbCall("PATCH", destination, path, params)]
      ensures fresh(b) && b.lane == lane
    {
      b := HttpStep("PATCH", destination, path, params);
    }

    /** httpDelete(destination, path, params). */
    method HttpDelete(destination: string, path: string, params: Option<Http.RequestParameters>) returns (b: LaneBuilder)
      modifies lane
      ensures lane.steps == old(lane.steps) + [VerbCall("DELETE", destination, path, params)]
      ensures fresh(b) && b.lane == lane
    {
      b := HttpStep("DELETE", destination, path, params);
    }

    /** invokeDestination(destination, path): a call step without parameters. */
    method InvokeDestination(destination: string, path: string) returns (self: LaneBuilder)
      modifies lane
      ensures lane.steps == old(lane.steps) + [CallStep(destination, path, None)]
      ensures self == this
    {
      Push(CallStep(destination, path, None));
      self := this;
    }

    /** expectHttpOk(). */
    method ExpectHttpOk() returns (self: LaneBuilder)
      modifies lane
      ensures lane.steps == old(lane.steps) + [StatusMatcherStep(HttpOkPatterns)]
      ensures self == this
    {
      Push(StatusMatcherStep(HttpOkPatterns));
      self := this;
    }

    /** expectHttpSuccess(). */
    method ExpectHttpSuccess() returns (self: LaneBuilder)
      modifies lane
      ensures lane.steps == old(lane.steps) + [StatusMatcherStep(HttpSuccessPatterns)]
      ensures self == this
    {
      Push(StatusMatcherStep(HttpSuccessPatterns));
      self := this;
    }

    /** expectHttpStatus(...patterns). */
    method ExpectHttpStatus(patterns: seq<Validate.StatusPattern>) returns (self: LaneBuilder)
      modifies lane
      ensures lane.steps == old(lane.steps) + [StatusMatcherStep(patterns)]
      ensures self == this
    {
      Push(StatusMatcherStep(patterns));
      self := this;
    }

    /** extractResponseBody(path), returning a new builder over the lane. */
    method ExtractResponseBody(path: Option<Transform.PathRef>) returns (b: LaneBuilder)
      modifies lane
      ensures lane.steps == old(lane.steps) + [ExtractBodyStep(path)]
      ensures fresh(b) && b.lane == lane
    {
      Push(ExtractBodyStep(path));
      b := new LaneBuilder(lane);
    }

    /** mapStatusCode(statusMap). */
    method MapStatusCode(clauses: seq<Transform.StatusClause>) returns (self: LaneBuilder)
      modifies lane
      ensures lane.steps == old(lane.steps) + [MapStatusCodeStep(clauses)]
      ensures self == this
    {
      Push(MapStatusCodeStep(clauses));
      self := this;
    }
  }

  // ---------------------------------------------------------------------
  // Destination builders

  /** A client read as an `HttpClientConfig`: it has no `adapter` and no `endpoint` property. */
  function ClientAsConfig(client: Destinations.HttpClient): (config: Destinations.HttpClientConfig)
    ensures config.adapter.None? && config.endpoint.None?
  {
    Destinations.HttpClientConfig(None, None)
  }

  /**
   * using(client) as written: the client the provider makes is handed to
   * the adapter constructor as its configuration, and a client has neither
   * a provider nor an endpoint of its own.
   */
  function UsingAsWritten(config: Destinations.HttpClientConfig, provider: Option<string> -> Destinations.HttpClient,
                          compile: Destinations.UriTemplate): (r: Result<Destinations.HttpAdapter, Thrown>)
  {
    Destinations.NewHttpAdapter(ClientAsConfig(provider(config.endpoint)), compile)
  }

  /** As written, `using` throws for every provider: the adapter finds no provider in a client. */
  lemma UsingAsWrittenThrows(config: Destinations.HttpClientConfig, provider: Option<string> -> Destinations.HttpClient,
                             compile: Destinations.UriTemplate)
    ensures UsingAsWritten(config, provider, compile) == Err(ThrowNative("Error", Destinations.NoHttpClientMessage))
  {
  }

  /** using(client) as intended: the builder's configuration with the given provider. */
  function UsingAdapter(config: Destinations.HttpClientConfig, provider: Option<string> -> Destinations.HttpClient,
                        compile: Destinations.UriTemplate): (a: Destinations.HttpAdapter)
    ensures a.client == provider(config.endpoint)
    ensures a.endpoint == (if config.endpoint.Some? then config.endpoint.value else "")
    ensures a.compile == compile
  {
    Destinations.NewHttpAdapter(config.(adapter := Some(provider)), compile).value
  }

  /** The intended adapter is what constructing the adapter from the configuration gives when it names the same provider. */
  lemma UsingAdapterIsConfigured(config: Destinations.HttpClientConfig, provider: Option<string> -> Destinations.HttpClient,
                                 compile: Destinations.UriTemplate)
    requires config.adapter == Some(provider)
    ensures Destinations.NewHttpAdapter(config, compile) == Ok(UsingAdapter(config, provider, compile))
  {
  }

  /** `HodrHttpClientDestinationBuilderStub`: the destination and the configuration `httpClient` was given. */
  class HttpClientStub {
    const destination: Destinations.HodrDestination
    const config: Destinations.HttpClientConfig

    constructor(destination: Destinations.HodrDestination, config: Destinations.HttpClientConfig)
      ensures this.destination == destination && this.config == config
    {
      this.destination := destination;
      this.config := config;
    }

    /** using(client), as intended: the destination gets an HTTP adapter whose client the provider makes. */
    method Using(provider: Option<string> -> Destinations.HttpClient, compile: Destinations.UriTemplate)
      modifies destination
      ensures destination.adapter == Some(Destinations.HttpClientAdapter(UsingAdapter(config, provider, compile)))
    {
      destination.adapter := Some(Destinations.HttpClientAdapter(UsingAdapter(config, provider, compile)));
    }
  }

  /** `HodrDestinationBuilder`: configures one destination. */
  class DestinationBuilder {
    const destination: Destinations.HodrDestination

    constructor(destination: Destinations.HodrDestination)
      ensures this.destination == destination
    {
      this.destination := destination;
    }

    /** httpClient(config): only remembers the configuration; the adapter is left as it was. */
    method HttpClient(config: Destinations.HttpClientConfig) returns (stub: HttpClientStub)
      ensures fresh(stub) && stub.destination == destination && stub.config == config
    {
      stub := new HttpClientStub(destination, config);
    }

    /** fileSystem(root): the destination serves files under root. */
    method FileSystem(root: string)
      modifies destination
      ensures destination.adapter == Some(Destinations.FileSystemAdapter(root))
    {
      destination.adapter := Some(Destinations.FileSystemAdapter(root));
    }
  }
}
