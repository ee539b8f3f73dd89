/**
 * An HTTP route of core/src/router/route.ts and the way it handles a request:
 * the router's request adapter makes a request of the raw request context,
 * the route's lane runs on it between a finalized initial step and a finalize
 * step, the response status and body are chosen, the adapter sends the
 * response, and the context is terminated.
 *
 * The raw request context of the router library is a JavaScript value, and
 * sending a response gives the raw context the adapter leaves behind.
 */
module Route {
  import opened Wrappers
  import opened Values
  import opened Types
  import Js
  import Http
  import HttpStatus
  import opened Steps
  import opened Context
  import opened LaneSemantics
  import LaneProperties
  import Builder
  import Execution
  import Tracker
  import Origin

  /** What the request adapter learns of the route: its router, method and path. */
  datatype RouteInfo = RouteInfo(router: string, verb: string, path: string)

  /**
   * `RouteRequestAdapter`: the library's name, the names of the initial and
   * finalize steps, and the four translations between the library and hodr.
   */
  datatype RouteRequestAdapter = RouteRequestAdapter(
    name: string,
    initialStepName: string,
    finalizeStepName: string,
    extractRequest: (Value, RouteInfo) -> Value,
    buildExecutionMetadata: (Value, RouteInfo) -> map<string, Value>,
    buildInitialStepMetadata: (Value, Value) -> StepMetadata,
    sendResponse: (Value, Value, Ctx) -> Value)

  /** `finalizePayload({ ctx, payload })`, which may throw. */
  type PayloadFinalizer = (Ctx, Value) -> Result<Value, Thrown>

  /** `formatError({ ctx, error })`, which may throw. */
  type ErrorFormatter = (Ctx, HodrError) -> Result<Value, Thrown>

  /** The router's default payload finalizer: the payload itself. */
  function PayloadAsIs(c: Ctx, payload: Value): (r: Result<Value, Thrown>)
    ensures r == Ok(payload)
  {
    Ok(payload)
  }

  /** The router's default error formatter: the error itself. */
  function ErrorAsIs(c: Ctx, error: HodrError): (r: Result<Value, Thrown>)
    ensures r == Ok(ErrorVal(error))
  {
    Ok(ErrorVal(error))
  }

  const ResponseBodyDescription := "Response Body"
  const DefaultRequestDescription := "Hodr HTTP Request"

  // ---------------------------------------------------------------------
  // The start of an execution

  /**
   * _buildInitialStep(adapter, ctx, request): a pending initial record named
   * by the adapter whose input is the raw context and output the request;
   * the descriptions the adapter gives win over the defaults.
   */
  function RouteInitialStep(adapter: RouteRequestAdapter, raw: Value, request: Value): (s: StepExecution)
    ensures s.kind == InitialKind && s.name == adapter.initialStepName && s.state == Pending
    ensures s.input == raw && s.output == request
    ensures var md := adapter.buildInitialStepMetadata(raw, request);
      && s.metadata.inputDescription == Some(if md.inputDescription.Some? then md.inputDescription.value else adapter.name + " Context")
      && s.metadata.outputDescription == Some(if md.outputDescription.Some? then md.outputDescription.value else DefaultRequestDescription)
      && s.metadata.journal == md.journal
  {
    var md := adapter.buildInitialStepMetadata(raw, request);
    StepExecution(InitialKind, adapter.initialStepName, Pending, raw, request,
      StepMetadata(
        Some(if md.inputDescription.Some? then md.inputDescription.value else adapter.name + " Context"),
        Some(if md.outputDescription.Some? then md.outputDescription.value else DefaultRequestDescription),
        md.journal))
  }

  /**
   * The context a route's lane runs in: a new execution on the request the
   * adapter extracted, with the request's URI as input topic and the initial
   * step finalized.
   */
  function RouteStart(adapter: RouteRequestAdapter, info: RouteInfo, lane: seq<Step>, raw: Value): (c: Ctx)
    ensures var request := adapter.extractRequest(raw, info);
      && c.payload == request && c.lane == lane && c.steps == [] && c.state == Running
      && c.origin == OriginId(info.router, info.path, info.verb)
      && c.currentStep == InitialStep && c.finalizeStep.None?
      && c.initialStep == RouteInitialStep(adapter, raw, request).(state := Finalized)
      && c.inputTopic == Js.ToStr(Js.Get(request, "uri"))
      && c.metadata == adapter.buildExecutionMetadata(raw, info)
  {
    var request := adapter.extractRequest(raw, info);
    var c := NewContext(Origin.ExecutionParams(info.router, info.path, info.verb, lane, request,
      RouteInitialStep(adapter, raw, request), Some(adapter.buildExecutionMetadata(raw, info))));
    c.(inputTopic := Js.ToStr(Js.Get(request, "uri")), initialStep := c.initialStep.(state := Finalized))
  }

  // ---------------------------------------------------------------------
  // The finish of an execution

  /** `HodrError.fromThrown(e)` of what the lane threw, if it threw. */
  function LaneError(thrown: Option<Thrown>): (e: Option<HodrError>)
    ensures e.Some? <==> thrown.Some?
    ensures thrown.Some? ==> e.value == FromThrown(thrown.value)
  {
    if thrown.Some? then Some(FromThrown(thrown.value)) else None
  }

  /** The finalize step handleRequest begins: `error` with the error, or `pending` with the payload. */
  function RouteFinalizeParams(adapter: RouteRequestAdapter, d: Ctx, error: Option<HodrError>): (p: FinalizeParams)
    ensures p.name == adapter.finalizeStepName
    ensures p.status == (if error.Some? then Error else Pending)
    ensures p.input == (if error.Some? then ErrorVal(error.value) else d.payload)
    ensures p.outputDescription == Some(ResponseBodyDescription) && p.inputDescription.None? && p.journal.None?
  {
    FinalizeParams(adapter.finalizeStepName, if error.Some? then Error else Pending,
      if error.Some? then ErrorVal(error.value) else d.payload, None, Some(ResponseBodyDescription), None)
  }

  /** `errorCodeToHttpStatus[error.code] ?? 500`. */
  function ErrorStatus(error: HodrError): (status: int)
    ensures HttpStatus.ErrorStatusOfName(error.code).Some? ==> status == HttpStatus.ErrorStatusOfName(error.code).value
    ensures HttpStatus.ErrorStatusOfName(error.code).None? ==> status == 500
  {
    match HttpStatus.ErrorStatusOfName(error.code)
    case Some(s) => s
    case None => 500
  }

  /** The status code of the response: that of the error, or the canonical status with 200 as fallback. */
  function ResponseStatus(c: Ctx, error: Option<HodrError>): (status: Value)
    ensures error.Some? ==> status == Num(ErrorStatus(error.value))
    ensures error.None? ==> status == Http.ResolveCanonicalHttpStatus(c.metadata, 200)
  {
    if error.Some? then Num(ErrorStatus(error.value)) else Http.ResolveCanonicalHttpStatus(c.metadata, 200)
  }

  /**
   * The body of the response: what the error formatter or the payload
   * finalizer makes of c, or when it throws the normalised error, which is
   * then the second result.
   */
  function ResponseBody(finalizePayload: PayloadFinalizer, formatError: ErrorFormatter, c: Ctx,
                        error: Option<HodrError>): (r: (Value, Option<HodrError>))
    ensures var out := if error.Some? then formatError(c, error.value) else finalizePayload(c, c.payload);
      && (out.Ok? ==> r == (out.value, None))
      && (out.Err? ==> r == (ErrorVal(FromThrown(out.error)), Some(FromThrown(out.error))))
  {
    var out := if error.Some? then formatError(c, error.value) else finalizePayload(c, c.payload);
    match out
    case Ok(body) => (body, None)
    case Err(t) => (ErrorVal(FromThrown(t)), Some(FromThrown(t)))
  }

  /** The response handed to `sendResponse`: a status code and a body, no headers. */
  function Response(status: Value, body: Value): (response: Value)
    ensures Js.Get(response, "statusCode") == status && Js.Get(response, "body") == body
    ensures Js.Get(response, "headers") == Undefined
  {
    Obj(map["statusCode" := status, "body" := body])
  }

  /** The `head` journal entry: the status code and the (absent) headers. */
  function HeadEntry(status: Value): (e: JournalEntry)
    ensures e.id == "head" && Js.Get(e.entry, "statusCode") == status
  {
    JournalEntry("head", "HTTP Response Head", None, Obj(map["statusCode" := status, "headers" := Undefined]), None)
  }

  /** The outcome of a request: the final context, the raw context after sending, and the response sent. */
  datatype Handled = Handled(ctx: Ctx, raw: Value, response: Value)

  /** The context when the response is sent: the finalize step marked as failed when the formatter threw. */
  function SendingContext(c: Ctx, formatterError: Option<HodrError>): (s: Ctx)
    requires c.finalizeStep.Some?
    ensures s.finalizeStep.Some?
    ensures s.finalizeStep.value == (if formatterError.Some? then c.finalizeStep.value.(state := Error) else c.finalizeStep.value)
    ensures s.(finalizeStep := c.finalizeStep) == c
  {
    if formatterError.Some? then c.(finalizeStep := Some(c.finalizeStep.value.(state := Error))) else c
  }

  /** The finalize step records the body as its output, and the head entry in its journal; then the context ends. */
  function Concluded(s: Ctx, status: Value, body: Value): (e: Ctx)
    requires s.finalizeStep.Some? && s.currentStep == FinalizeStep
    ensures e.finalizeStep.Some? && e.currentStep == NoStep
    ensures e.finalizeStep.value.output == body
    ensures e.finalizeStep.value.name == s.finalizeStep.value.name
    ensures e.finalizeStep.value.input == s.finalizeStep.value.input
    ensures e.finalizeStep.value.metadata.journal == s.finalizeStep.value.metadata.journal + [HeadEntry(status)]
    ensures e.finalizeStep.value.state == Promoted(s.finalizeStep.value.state)
    ensures e.state == Ended(e.finalizeStep.value.state)
    ensures e.steps == s.steps && e.payload == s.payload && e.initialStep == s.initialStep && e.metadata == s.metadata
  {
    var withOutput := s.(finalizeStep := Some(s.finalizeStep.value.(output := body)));
    Terminated(AddJournal(withOutput, HeadEntry(status)))
  }

  /**
   * What handleRequest does after the lane ran, leaving d and what it threw:
   * begin the finalize step, choose the status, make the body, send the
   * response, record it on the finalize step, and terminate.
   */
  function RouteFinish(adapter: RouteRequestAdapter, finalizePayload: PayloadFinalizer, formatError: ErrorFormatter,
                       raw: Value, d: Ctx, thrown: Option<Thrown>): (h: Handled)
  {
    var error := LaneError(thrown);
    var c1 := BeginFinalization(d, RouteFinalizeParams(adapter, d, error));
    var status := ResponseStatus(c1, error);
    var (body, formatterError) := ResponseBody(finalizePayload, formatError, c1, error);
    var s := SendingContext(c1, formatterError);
    var response := Response(status, body);
    Handled(Concluded(s, status, body), adapter.sendResponse(raw, response, s), response)
  }

  /** A request handled from the context c: the lane run, then the finish. */
  ghost function RouteRunFrom(env: Env, adapter: RouteRequestAdapter, finalizePayload: PayloadFinalizer, formatError: ErrorFormatter,
                              raw: Value, c: Ctx): Handled
  {
    var (d, thrown) := RunLane(env, c);
    RouteFinish(adapter, finalizePayload, formatError, raw, d, thrown)
  }

  /** A request handled from the start: the route's context made, the lane run, then the finish. */
  ghost function RouteRun(env: Env, adapter: RouteRequestAdapter, finalizePayload: PayloadFinalizer, formatError: ErrorFormatter,
                          info: RouteInfo, lane: seq<Step>, raw: Value): Handled
  {
    RouteRunFrom(env, adapter, finalizePayload, formatError, raw, RouteStart(adapter, info, lane, raw))
  }

  // ---------------------------------------------------------------------
  // Properties

  /**
   * After a lane failure the status is that of the error's code, or 500,
   * whatever the formatter does; the finalize step began as failed with the
   * normalised error as input, and the context ends failed.
   */
  lemma FailedRequest(adapter: RouteRequestAdapter, finalizePayload: PayloadFinalizer, formatError: ErrorFormatter,
                      raw: Value, d: Ctx, t: Thrown)
    ensures var h := RouteFinish(adapter, finalizePayload, formatError, raw, d, Some(t));
      && Js.Get(h.response, "statusCode") == Num(ErrorStatus(FromThrown(t)))
      && h.ctx.finalizeStep.value.input == ErrorVal(FromThrown(t))
      && h.ctx.finalizeStep.value.name == adapter.finalizeStepName
      && h.ctx.state == Ended(Error)
  {
  }

  /**
   * An error carrying an error code answers with that code's HTTP status;
   * a success code, an informational code or a code hodr does not know
   * answers 500.
   */
  lemma ErrorStatusOfCode(error: HodrError, code: HttpStatus.InternalCode)
    requires error.code == HttpStatus.CodeName(code)
    ensures HttpStatus.IsErrorCode(code) ==> ErrorStatus(error) == HttpStatus.ErrorCodeToHttpStatus(code).value
    ensures !HttpStatus.IsErrorCode(code) ==> ErrorStatus(error) == 500
  {
    HttpStatus.ParseCodeName(code);
    HttpStatus.ErrorCodeRoundTrip(code);
  }

  /** An error whose code is no internal code answers 500. */
  lemma UnknownCodeStatus(error: HodrError)
    requires HttpStatus.ParseCode(error.code).None?
    ensures ErrorStatus(error) == 500
  {
  }

  /**
   * The status a route answers for whatever a lane throws, once normalised:
   * a HodrError keeps its own status; an Error keeps its message and answers
   * 500 unless its name is an internal error code; a thrown string keeps its
   * text as the message, and any value other than an Error answers 500.
   */
  lemma ThrownErrorStatus(t: Thrown)
    ensures t.Raised? ==> ErrorStatus(FromThrown(t)) == ErrorStatus(t.err)
    ensures t.NativeError? ==> FromThrown(t).message == t.message && FromThrown(t).code == t.name
    ensures t.NativeError? && HttpStatus.ParseCode(t.name).None? ==> ErrorStatus(FromThrown(t)) == 500
    ensures t.Other? && t.value.Str? ==> FromThrown(t).message == t.value.s
    ensures t.Other? && !t.value.ErrorVal? ==> ErrorStatus(FromThrown(t)) == 500
  {
    HttpStatus.ParseCodeName(HttpStatus.ServerError(HttpStatus.InternalError));
  }

  /**
   * After success the status is the canonical status recorded during the
   * run, or 200 when none was; the finalize step began pending with the
   * payload as input.
   */
  lemma SucceededRequest(adapter: RouteRequestAdapter, finalizePayload: PayloadFinalizer, formatError: ErrorFormatter,
                         raw: Value, d: Ctx)
    ensures var h := RouteFinish(adapter, finalizePayload, formatError, raw, d, None);
      && Js.Get(h.response, "statusCode") == Http.ResolveCanonicalHttpStatus(d.metadata, 200)
      && h.ctx.finalizeStep.value.input == d.payload
    ensures !Js.Truthy(Http.CanonicalStatus(d.metadata)) ==>
      Js.Get(RouteFinish(adapter, finalizePayload, formatError, raw, d, None).response, "statusCode") == Num(200)
  {
    if !Js.Truthy(Http.CanonicalStatus(d.metadata)) {
      Http.CanonicalStatusFallback(d.metadata, 200);
    }
  }

  /**
   * A finalizer that succeeds gives the body; the context ends finalized
   * when the lane did, failed when it did not.
   */
  lemma BodyFromFormatter(adapter: RouteRequestAdapter, finalizePayload: PayloadFinalizer, formatError: ErrorFormatter,
                          raw: Value, d: Ctx, thrown: Option<Thrown>)
    requires var c1 := BeginFinalization(d, RouteFinalizeParams(adapter, d, LaneError(thrown)));
      (if thrown.Some? then formatError(c1, FromThrown(thrown.value)) else finalizePayload(c1, d.payload)).Ok?
    ensures var c1 := BeginFinalization(d, RouteFinalizeParams(adapter, d, LaneError(thrown)));
      var h := RouteFinish(adapter, finalizePayload, formatError, raw, d, thrown);
      && Js.Get(h.response, "body") == (if thrown.Some? then formatError(c1, FromThrown(thrown.value)) else finalizePayload(c1, d.payload)).value
      && h.ctx.state == Ended(if thrown.Some? then Error else Finalized)
  {
  }

  /**
   * A formatter that throws makes the normalised error the body and fails
   * the finalize step; the status already chosen stays.
   */
  lemma BodyWhenFormatterThrows(adapter: RouteRequestAdapter, finalizePayload: PayloadFinalizer, formatError: ErrorFormatter,
                                raw: Value, d: Ctx, thrown: Option<Thrown>)
    requires var c1 := BeginFinalization(d, RouteFinalizeParams(adapter, d, LaneError(thrown)));
      (if thrown.Some? then formatError(c1, FromThrown(thrown.value)) else finalizePayload(c1, d.payload)).Err?
    ensures var c1 := BeginFinalization(d, RouteFinalizeParams(adapter, d, LaneError(thrown)));
      var t := (if thrown.Some? then formatError(c1, FromThrown(thrown.value)) else finalizePayload(c1, d.payload)).error;
      var h := RouteFinish(adapter, finalizePayload, formatError, raw, d, thrown);
      && Js.Get(h.response, "body") == ErrorVal(FromThrown(t))
      && Js.Get(h.response, "statusCode") == ResponseStatus(c1, LaneError(thrown))
      && h.ctx.state == Ended(Error)
  {
  }

  /**
   * The response is sent once, with the final status and body, and recorded
   * on the finalize step: the body as its output and the head entry last in
   * its journal. The context ends terminated, with no current step.
   */
  lemma ResponseRecorded(adapter: RouteRequestAdapter, finalizePayload: PayloadFinalizer, formatError: ErrorFormatter,
                         raw: Value, d: Ctx, thrown: Option<Thrown>)
    ensures var h := RouteFinish(adapter, finalizePayload, formatError, raw, d, thrown);
      var f := h.ctx.finalizeStep.value;
      && f.output == Js.Get(h.response, "body")
      && |f.metadata.journal| > 0 && f.metadata.journal[|f.metadata.journal| - 1] == HeadEntry(Js.Get(h.response, "statusCode"))
      && h.ctx.currentStep == NoStep
      && h.ctx.state == Ended(f.state) && f.state != Pending
      && h.ctx.steps == d.steps && h.ctx.initialStep == d.initialStep
  {
  }

  /** The context ends failed exactly when the lane or the body formatter threw. */
  lemma EndsFailedIff(adapter: RouteRequestAdapter, finalizePayload: PayloadFinalizer, formatError: ErrorFormatter,
                      raw: Value, d: Ctx, thrown: Option<Thrown>)
    ensures var c1 := BeginFinalization(d, RouteFinalizeParams(adapter, d, LaneError(thrown)));
      var out := if thrown.Some? then formatError(c1, FromThrown(thrown.value)) else finalizePayload(c1, d.payload);
      var h := RouteFinish(adapter, finalizePayload, formatError, raw, d, thrown);
      h.ctx.state == Ended(Error) <==> thrown.Some? || out.Err?
  {
  }

  /**
   * The lane of a route runs on the extracted request with the initial step
   * finalized and untouched by the run; the context's origin carries the
   * route's method as its variant.
   */
  lemma RouteRunsOnRequest(env: Env, adapter: RouteRequestAdapter, info: RouteInfo, lane: seq<Step>, raw: Value,
                           d: Ctx, thrown: Option<Thrown>)
    requires RunLane(env, RouteStart(adapter, info, lane, raw)) == (d, thrown)
    ensures d.initialStep.state == Finalized && d.initialStep.name == adapter.initialStepName
    ensures d.origin.variant == info.verb && d.origin.name == info.router && d.origin.input == info.path
    ensures d.inputTopic == Js.ToStr(Js.Get(adapter.extractRequest(raw, info), "uri"))
    ensures thrown.None? && |lane| == 0 ==> d.payload == adapter.extractRequest(raw, info)
  {
    var c := RouteStart(adapter, info, lane, raw);
    LaneProperties.LaneKeepsFrame(env, c, d, thrown);
    if thrown.None? {
      LaneProperties.LaneCompletes(env, c, d);
    }
  }

  // ---------------------------------------------------------------------
  // The route

  /** A `HodrRoute`: a lane for one method and path of a router, with the router's formatters at its creation. */
  class HodrRoute {
    const router: string
    const verb: string
    const path: string
    const lane: Builder.Lane
    const finalizePayload: PayloadFinalizer
    const formatError: ErrorFormatter

    constructor(router: string, verb: string, path: string, lane: Builder.Lane,
                finalizePayload: PayloadFinalizer, formatError: ErrorFormatter)
      ensures this.router == router && this.verb == verb && this.path == path && this.lane == lane
      ensures this.finalizePayload == finalizePayload && this.formatError == formatError
    {
      this.router := router;
      this.verb := verb;
      this.path := path;
      this.lane := lane;
      this.finalizePayload := finalizePayload;
      this.formatError := formatError;
    }

    /** variant(): the route's method. */
    function Variant(): (v: string)
      ensures v == verb
    {
      verb
    }

    function Info(): (info: RouteInfo)
      ensures info.verb == Variant() && info.router == router && info.path == path
    {
      RouteInfo(router, verb, path)
    }

    /** The start of handleRequest, up to the lane. */
    method Begin(adapter: RouteRequestAdapter, raw: Value) returns (ctx: HodrContext)
      ensures fresh(ctx) && ctx.Model() == RouteStart(adapter, Info(), lane.steps, raw)
    {
      var request := adapter.extractRequest(raw, Info());
      var initialStep := RouteInitialStep(adapter, raw, request);
      ctx := Origin.NewExecution(router, path, Variant(), lane.steps, request, initialStep,
        Some(adapter.buildExecutionMetadata(raw, Info())));
      ctx.inputTopic := Js.ToStr(Js.Get(request, "uri"));
      ctx.initialStep := ctx.initialStep.(state := Finalized);
    }

    /** The finalize step marked as failed, when the body could not be made. */
    static method FailFinalizeStep(ctx: HodrContext)
      requires ctx.finalizeStep.Some?
      modifies ctx
      ensures ctx.Model() == old(ctx.Model()).(finalizeStep := Some(old(ctx.Model()).finalizeStep.value.(state := Error)))
    {
      ctx.finalizeStep := Some(ctx.finalizeStep.value.(state := Error));
    }

    /** The response recorded on the finalize step, and the context terminated. */
    static method Conclude(ctx: HodrContext, status: Value, body: Value)
      requires ctx.finalizeStep.Some? && ctx.currentStep == FinalizeStep
      modifies ctx
      ensures ctx.Model() == Concluded(old(ctx.Model()), status, body)
    {
      ctx.finalizeStep := Some(ctx.finalizeStep.value.(output := body));
      var _ := ctx.AddJournalEntry(HeadEntry(status));
      ctx.Terminate();
    }

    /** The end of handleRequest, after the lane. */
    method Finish(adapter: RouteRequestAdapter, raw: Value, ctx: HodrContext, thrown: Option<Thrown>)
      returns (sentRaw: Value, response: Value)
      modifies ctx
      ensures Handled(ctx.Model(), sentRaw, response) == RouteFinish(adapter, finalizePayload, formatError, raw, old(ctx.Model()), thrown)
    {
      var error := LaneError(thrown);
      var _ := ctx.BeginFinalizationStep(RouteFinalizeParams(adapter, ctx.Model(), error));
      var status := ResponseStatus(ctx.Model(), error);
      var (body, formatterError) := ResponseBody(finalizePayload, formatError, ctx.Model(), error);
      if formatterError.Some? {
        FailFinalizeStep(ctx);
      }
      response := Response(status, body);
      sentRaw := adapter.sendResponse(raw, response, ctx.Model());
      Conclude(ctx, status, body);
    }

    /** The lane run on ctx, then the response. */
    method Respond(root: Execution.Root, env: Env, adapter: RouteRequestAdapter, raw: Value, ctx: HodrContext)
      returns (sentRaw: Value, response: Value, recorded: seq<HodrContext>)
      requires env == Execution.EnvOf(root)
      modifies ctx
      ensures Handled(ctx.Model(), sentRaw, response) == RouteRunFrom(env, adapter, finalizePayload, formatError, raw, old(ctx.Model()))
      ensures |recorded| > 0 && recorded[0] == ctx
      ensures Execution.DistinctContexts(recorded)
      ensures forall i :: 1 <= i < |recorded| ==> fresh(recorded[i])
    {
      var thrown;
      thrown, recorded := Execution.ExecuteLane(root, env, ctx);
      sentRaw, response := Finish(adapter, raw, ctx, thrown);
    }

    /** The request's context made, the lane run, then the response; the trackers take no part. */
    method RunAndRespond(root: Execution.Root, env: Env, adapter: RouteRequestAdapter, raw: Value)
      returns (sentRaw: Value, response: Value, ctx: HodrContext, recorded: seq<HodrContext>)
      requires env == Execution.EnvOf(root)
      ensures fresh(ctx)
      ensures Handled(ctx.Model(), sentRaw, response) == RouteRun(env, adapter, finalizePayload, formatError, Info(), lane.steps, raw)
      ensures |recorded| > 0 && recorded[0] == ctx
      ensures Execution.DistinctContexts(recorded)
      ensures forall i :: 0 <= i < |recorded| ==> fresh(recorded[i])
    {
      ctx := Begin(adapter, raw);
      ghost var steps := lane.steps;
      assert ctx.Model() == RouteStart(adapter, Info(), steps, raw);
      sentRaw, response, recorded := Respond(root, env, adapter, raw, ctx);
      assert lane.steps == steps;
    }

    /**
     * handleRequest(ctx, adapter): the adapter's raw context after the
     * response was sent, and the response; the contexts the run handed to
     * `record` go to every tracker, the request's own first, each of them
     * new and each once.
     */
    method HandleRequest(root: Execution.Root, env: Env, trackers: seq<Tracker.MemoryTracker>,
                         raw: Value, adapter: RouteRequestAdapter)
      returns (sentRaw: Value, response: Value, ctx: HodrContext, recorded: seq<HodrContext>)
      requires env == Execution.EnvOf(root) && Tracker.Distinct(trackers)
      modifies Tracker.Objects(trackers)
      ensures fresh(ctx)
      ensures Handled(ctx.Model(), sentRaw, response) == RouteRun(env, adapter, finalizePayload, formatError, Info(), lane.steps, raw)
      ensures |recorded| > 0 && recorded[0] == ctx
      ensures Execution.DistinctContexts(recorded)
      ensures forall i :: 0 <= i < |recorded| ==> fresh(recorded[i])
      ensures forall t :: t in trackers ==> t.contexts == old(t.contexts) + recorded
    {
      sentRaw, response, ctx, recorded := RunAndRespond(root, env, adapter, raw);
      ghost var finished := ctx.Model();
      Tracker.RecordEach(trackers, recorded);
      assert ctx.Model() == finished;
    }
  }
}
