/**
 * What running a lane does, as functions over context values: the lane
 * runner of core/src/engine/execution.ts and the `execute` of every step of
 * core/src/lane/step.ts and core/src/lane/builder.ts. Each function takes
 * the context before and returns the context after together with the step's
 * result or the value it threw; the methods of the Execution module are
 * proved to act exactly so.
 *
 * The root an execution belongs to is given as an `Env`: the adapter of each
 * registered destination and the registered validators.
 */
module LaneSemantics {
  import opened Wrappers
  import opened Values
  import opened Types
  import Js
  import ObjectPath
  import Transform
  import Validate
  import Http
  import opened Steps
  import opened Context
  import Destinations

  /** What a step can see of the root: destinations by name and the validators in registration order. */
  datatype Env = Env(destinations: map<string, Option<Destinations.Adapter>>, validators: seq<Validator>)

  /** A lane step is running: `currentStep` is one of the context's lane records. */
  predicate InStep(c: Ctx)
  {
    c.currentStep.LaneStep? && c.currentStep.index < |c.steps|
  }

  /** A record whose journal may have grown and which is otherwise the same. */
  predicate JournalGrows(a: StepExecution, b: StepExecution)
  {
    && b == a.(metadata := a.metadata.(journal := b.metadata.journal))
    && a.metadata.journal <= b.metadata.journal
  }

  /**
   * What a step may change of the context it runs in: the payload, the
   * metadata and the journal of the running record, and nothing else.
   */
  ghost predicate Preserves(c: Ctx, d: Ctx)
    requires InStep(c)
  {
    && d == c.(steps := d.steps, payload := d.payload, metadata := d.metadata)
    && |d.steps| == |c.steps|
    && (forall j :: 0 <= j < |c.steps| && j != c.currentStep.index ==> d.steps[j] == c.steps[j])
    && JournalGrows(c.steps[c.currentStep.index], d.steps[c.currentStep.index])
  }

  lemma PreservesInStep(c: Ctx, d: Ctx)
    requires InStep(c) && Preserves(c, d)
    ensures InStep(d) && d.currentStep == c.currentStep
  {
  }

  lemma PreservesTrans(c: Ctx, d: Ctx, e: Ctx)
    requires InStep(c) && Preserves(c, d)
    ensures InStep(d)
    ensures Preserves(d, e) ==> Preserves(c, e)
  {
    if Preserves(d, e) {
      var k := c.currentStep.index;
      var a, b, r := c.steps[k], d.steps[k], e.steps[k];
      assert b.metadata.journal <= r.metadata.journal;
      assert r == a.(metadata := a.metadata.(journal := r.metadata.journal));
    }
  }

  lemma PreservesAddJournal(c: Ctx, e: JournalEntry)
    requires InStep(c)
    ensures Preserves(c, AddJournal(c, e))
  {
    var k := c.currentStep.index;
    assert CurrentRecord(c) == c.steps[k];
  }

  lemma {:induction false} PreservesAddJournals(c: Ctx, es: seq<JournalEntry>)
    requires InStep(c)
    ensures Preserves(c, AddJournals(c, es))
    decreases |es|
  {
    if |es| == 0 {
      PreservesTrans(c, c, c);
    } else {
      var c1 := AddJournal(c, es[0]);
      PreservesAddJournal(c, es[0]);
      PreservesTrans(c, c1, c1);
      PreservesAddJournals(c1, es[1..]);
      PreservesTrans(c, c1, AddJournals(c1, es[1..]));
    }
  }

  // ---------------------------------------------------------------------
  // The steps that only compute or touch the current record

  /** The error of a CallStep whose destination is not registered. */
  function DestinationMissing(destination: string): Thrown
  {
    Throw(SimpleHodrError("Destination '" + destination + "' has not been configured."))
  }

  /** CallStep.execute: the named destination's `invoke`. */
  function CallSem(env: Env, destination: string, path: string, params: Option<Http.RequestParameters>, c: Ctx): (r: (Ctx, Result<Value, Thrown>))
    requires InStep(c)
    ensures Preserves(c, r.0)
  {
    if destination !in env.destinations then (c, Err(DestinationMissing(destination)))
    else
      AdapterInvokePreserves(env.destinations[destination], c, path, params);
      Destinations.AdapterInvoke(env.destinations[destination], c, path, params)
  }

  lemma AdapterInvokePreserves(adapter: Option<Destinations.Adapter>, c: Ctx, path: string, params: Option<Http.RequestParameters>)
    requires InStep(c)
    ensures Preserves(c, Destinations.AdapterInvoke(adapter, c, path, params).0)
  {
    if adapter.Some? && adapter.value.HttpClientAdapter? {
      var a := adapter.value.http;
      var p := if params.Some? then params.value else Http.DefaultParameters;
      var inputs := Destinations.RequestInputs(c, p);
      if inputs.Ok? && a.compile(path, inputs.value.0).Ok? {
        PreservesAddJournal(c, Destinations.ParameterizedUriEntry(a.compile(path, inputs.value.0).value));
      }
    }
  }

  /**
   * ExtractStep.execute: the directive evaluated on the payload with the
   * payload's fields overlaid by the atoms as bindings; the comparisons it
   * ran are journaled when there are any.
   */
  function ExtractSem(directive: Transform.Directive, c: Ctx): (r: (Ctx, Result<Value, Thrown>))
    requires InStep(c)
    ensures Preserves(c, r.0)
  {
    match Transform.ExtractMap(c.payload, directive, Bindings(c.payload, c.atoms), true)
    case Err(e) => (c, Err(ObjectPath.ParseErrorThrown(e)))
    case Ok(out) =>
      if |out.reports| > 0 then
        PreservesAddJournal(c, ExtractComparisons(out.reports));
        (AddJournal(c, ExtractComparisons(out.reports)), Ok(out.value))
      else (c, Ok(out.value))
  }

  /**
   * A user function's outcome applied to the context: the entries it added
   * are on the running record's journal, and its result is the step's.
   */
  function Apply(c: Ctx, out: UserOutcome): (r: (Ctx, Result<Value, Thrown>))
    requires InStep(c)
    ensures Preserves(c, r.0)
  {
    PreservesAddJournals(c, out.journal);
    (AddJournals(c, out.journal), out.result)
  }

  /**
   * TransformStep.execute: the function is called with the payload, the
   * context and the atoms; its result, or the payload with a non-empty field
   * set to it, is the step's.
   */
  function TransformSem(field: Option<string>, fn: UserFn, c: Ctx): (r: (Ctx, Result<Value, Thrown>))
    requires InStep(c)
    ensures Preserves(c, r.0)
  {
    var out := fn(c.payload, View(c), c.atoms);
    match out.result
    case Err(t) => Apply(c, out)
    case Ok(v) => Apply(c, out.(result := Ok(if field.Some? && field.value != "" then WithField(c.payload, field.value, v) else v)))
  }

  /**
   * The predicate applied to the payload: a function is handed the context
   * and may journal on it; a path expression journals each comparison it runs.
   */
  function EnsureVerdict(condition: Predicate, c: Ctx): (r: (Ctx, Result<Value, Thrown>))
    requires InStep(c)
    ensures Preserves(c, r.0)
  {
    match condition
    case PredicateFunction(fn) => Apply(c, fn(c.payload, View(c), c.atoms))
    case PredicateExpression(source, node) =>
      var out := ObjectPath.Eval(node, c.payload, Bindings(c.payload, c.atoms), true);
      Apply(c, UserOutcome(Ok(out.value), ComparisonJournalEntries(source, out.reports)))
  }

  /**
   * EnsureStep.execute: the predicate's verdict on the payload; a path
   * expression journals each comparison it runs. A falsy verdict throws the
   * expectation error, a truthy one passes the payload on.
   */
  function EnsureSem(condition: Predicate, internalErrorCode: Value, httpErrorCode: Value, c: Ctx): (r: (Ctx, Result<Value, Thrown>))
    requires InStep(c)
    ensures Preserves(c, r.0)
  {
    var (d, verdict) := EnsureVerdict(condition, c);
    match verdict
    case Err(t) => (d, Err(t))
    case Ok(v) => if Js.Truthy(v) then (d, Ok(c.payload)) else (d, Err(Throw(Expectation(internalErrorCode, httpErrorCode))))
  }

  /**
   * What the validator makes of the payload, before a failure is re-thrown:
   * a validator function sees only the payload, a registered validator is
   * handed the context and may journal on it.
   */
  function ValidatorResult(env: Env, validator: ValidatorArg, targetPath: Option<string>, c: Ctx): (r: (Ctx, Result<Value, Thrown>))
    requires InStep(c)
    ensures Preserves(c, r.0)
  {
    match validator
    case ValidatorFunction(fn) => Apply(c, UserOutcome(fn(c.payload), []))
    case ValidatorObject(schema) =>
      match FirstValidator(env.validators, schema)
      case Some(i) => Apply(c, env.validators[i].validate(View(c), schema, targetPath))
      case None => Apply(c, UserOutcome(Ok(c.payload), []))
  }

  /**
   * ValidateStep.execute: a validator function's result, else the result of
   * the first registered validator that understands the validator object,
   * else the payload; a failure is re-thrown as a bad request, and what the
   * validator journaled stays.
   */
  function ValidateSem(env: Env, validator: ValidatorArg, targetPath: Option<string>, c: Ctx): (r: (Ctx, Result<Value, Thrown>))
    requires InStep(c)
    ensures Preserves(c, r.0)
  {
    var (d, v) := ValidatorResult(env, validator, targetPath, c);
    if v.Err? then (d, Err(BadRequest(v.error))) else (d, v)
  }

  /** The TypeError of assigning a property on a primitive value. */
  function PropertyOfPrimitive(v: Value, key: string): Thrown
  {
    ThrowNative("TypeError", "Cannot create property '" + key + "' on " + Js.TypeOf(v) + " '" + Js.ToStr(v) + "'")
  }

  /** The remapped status: a numeric status goes through the clauses, anything else is kept. */
  function RemappedStatus(status: Value, clauses: seq<Transform.StatusClause>): Value
  {
    if status.Num? then Num(Transform.MapStatusCode(status.n, clauses)) else status
  }

  /**
   * MapStatusCodeStep.execute: the status of the payload is remapped in
   * place, a canonical status is recorded when the new status is 2xx, and
   * the payload is returned. Reading the status of null or undefined and
   * writing it on a primitive throw.
   */
  function MapStatusCodeSem(clauses: seq<Transform.StatusClause>, c: Ctx): (r: (Ctx, Result<Value, Thrown>))
    requires InStep(c)
    ensures Preserves(c, r.0)
  {
    if Js.IsNullish(c.payload) then (c, Err(Http.PropertyOfNullish(c.payload, "statusCode")))
    else if !c.payload.Obj? && !c.payload.Arr? && !c.payload.ErrorVal? then
      (c, Err(PropertyOfPrimitive(c.payload, "statusCode")))
    else
      var mapped := RemappedStatus(Js.Get(c.payload, "statusCode"), clauses);
      var payload := if c.payload.Obj? then Obj(c.payload.fields["statusCode" := mapped]) else c.payload;
      var c1 := c.(payload := payload);
      if Http.IsSuccessStatus(mapped) then
        (c1.(metadata := c1.metadata["canonicalStatus" := Http.CanonicalRecord(mapped, "http-status-remap", CurrentName(c1))]), Ok(payload))
      else (c1, Ok(payload))
  }

  /** The `extract-http-body` step: `extractPath(payload.body, path)`. */
  function ExtractBodySem(bodyPath: Option<Transform.PathRef>, payload: Value): Result<Value, Thrown>
  {
    if Js.IsNullish(payload) then Err(Http.PropertyOfNullish(payload, "body"))
    else Ok(Transform.ExtractPath(Js.Get(payload, "body"), bodyPath))
  }

  /** The TypeError a ParallelStep constructed without lanes throws. */
  const LanesUndefined := ThrowNative("TypeError", "Cannot read properties of undefined (reading 'map')")

  // ---------------------------------------------------------------------
  // Steps and lanes

  /** `step.execute(ctx)`. */
  function StepSem(env: Env, s: Step, c: Ctx): (r: (Ctx, Result<Value, Thrown>))
    requires InStep(c)
    ensures Preserves(c, r.0)
    decreases StepSize(s), 1, 0
  {
    match s
    case CallStep(destination, path, params) => CallSem(env, destination, path, params, c)
    case ExtractStep(directive) => ExtractSem(directive, c)
    case TransformStep(field, fn) => TransformSem(field, fn, c)
    case EnsureStep(_, condition, internalErrorCode, httpErrorCode) => EnsureSem(condition, internalErrorCode, httpErrorCode, c)
    case ValidateStep(validator, targetPath) => ValidateSem(env, validator, targetPath, c)
    case ParallelStep(lanes) => (c, ParallelResult(LanesSem(env, lanes, c, 0)))
    case UndefinedParallelStep => (c, Err(LanesUndefined))
    case SequenceStep(steps) => SequenceSem(env, steps, c, 0, Null)
    case MapStatusCodeStep(clauses) => MapStatusCodeSem(clauses, c)
    case StatusMatcherStep(patterns) => (c, Validate.MatcherOutcome(c.payload, patterns))
    case LiteralStep(value) => (c, Ok(value))
    case ExtractBodyStep(bodyPath) => (c, ExtractBodySem(bodyPath, c.payload))
  }

  /** The result of a ParallelStep: the first lane failure, else the array of the lanes' payloads. */
  function ParallelResult(lanes: (seq<Value>, Option<Thrown>)): (r: Result<Value, Thrown>)
    ensures r.Err? <==> lanes.1.Some?
  {
    if lanes.1.Some? then Err(lanes.1.value) else Ok(Arr(lanes.0))
  }

  /**
   * ParallelStep.execute from the lane at index k on: each lane runs in a
   * fork of the context; the final payloads of the forks are collected in
   * lane order, with the error of the first lane that failed.
   */
  function LanesSem(env: Env, lanes: seq<ParallelLane>, c: Ctx, k: nat): (r: (seq<Value>, Option<Thrown>))
    requires k <= |lanes|
    ensures |r.0| == |lanes| - k
    decreases StepSize(ParallelStep(lanes)), 0, |lanes| - k
  {
    if k == |lanes| then ([], None)
    else
      LaneSmallerThanLanes(lanes, k);
      var (d, error) := RunLane(env, ForkOf(c, lanes[k].steps));
      var (rest, restError) := LanesSem(env, lanes, c, k + 1);
      ([d.payload] + rest, if error.Some? then error else restError)
  }

  /** LanesSem at lane k, given what the lane's fork ends with. */
  lemma LanesSemUnfold(env: Env, lanes: seq<ParallelLane>, c: Ctx, k: nat, d: Ctx, error: Option<Thrown>)
    requires k < |lanes| && (d, error) == RunLane(env, ForkOf(c, lanes[k].steps))
    ensures LanesSem(env, lanes, c, k).0 == [d.payload] + LanesSem(env, lanes, c, k + 1).0
    ensures LanesSem(env, lanes, c, k).1 == if error.Some? then error else LanesSem(env, lanes, c, k + 1).1
  {
  }

  /**
   * SequenceStep.execute from the nested step at index j on: every nested
   * step runs in the same context, and the result is the last one's (null
   * for none); the first failure ends the sequence.
   */
  function SequenceSem(env: Env, steps: seq<Step>, c: Ctx, j: nat, result: Value): (r: (Ctx, Result<Value, Thrown>))
    requires InStep(c) && j <= |steps|
    ensures Preserves(c, r.0)
    decreases StepSize(SequenceStep(steps)), 0, |steps| - j
  {
    if j == |steps| then (c, Ok(result))
    else
      StepSmallerThanLane(steps, j);
      var (d, r) := StepSem(env, steps[j], c);
      PreservesTrans(c, d, d);
      match r
      case Err(t) => (d, Err(t))
      case Ok(v) =>
        var e := SequenceSem(env, steps, d, j + 1, v);
        PreservesTrans(c, d, e.0);
        e
  }

  /** The record the runner appends for a step before running it. */
  function PendingRecord(s: Step, input: Value): (r: StepExecution)
    ensures r.kind == LaneKind && r.name == StepName(s) && r.state == Pending && r.input == input
    ensures r.metadata.journal == []
  {
    StepExecution(LaneKind, StepName(s), Pending, input, Undefined, EmptyStepMetadata)
  }

  /** The context with a pending record for the step appended and made current. */
  function Begin(s: Step, c: Ctx): (d: Ctx)
    ensures InStep(d) && d.currentStep == LaneStep(|c.steps|)
    ensures d.steps == c.steps + [PendingRecord(s, c.payload)]
  {
    c.(steps := c.steps + [PendingRecord(s, c.payload)], currentStep := LaneStep(|c.steps|))
  }

  /** The running record marked finalized with the step's result, which becomes the payload. */
  function Succeed(c: Ctx, v: Value): (d: Ctx)
    requires InStep(c)
  {
    var k := c.currentStep.index;
    c.(steps := c.steps[k := c.steps[k].(state := Finalized, output := v)], payload := v)
  }

  /** The running record marked as failed, with the diagnostic entry for what was thrown. */
  function Fail(c: Ctx, t: Thrown): (d: Ctx)
    requires InStep(c)
  {
    var k := c.currentStep.index;
    AddJournal(c.(steps := c.steps[k := c.steps[k].(state := Error)]), Diagnostic(t))
  }

  /** The running record settled by the step's result: finalized on success, marked as failed otherwise. */
  function Settle(c: Ctx, r: Result<Value, Thrown>): (d: (Ctx, Option<Thrown>))
    requires InStep(c)
    ensures d.1 == if r.Ok? then None else Some(r.error)
  {
    match r
    case Ok(v) => (Succeed(c, v), None)
    case Err(t) => (Fail(c, t), Some(t))
  }

  /**
   * One turn of the runner's loop: the step gets a pending record that
   * becomes current, runs, and is finalized with its result, which becomes
   * the payload, or is marked as failed with a diagnostic of what it threw.
   */
  function StepOnce(env: Env, s: Step, c: Ctx): (r: (Ctx, Option<Thrown>))
    decreases StepSize(s), 2
  {
    var c1 := Begin(s, c);
    var (c2, r) := StepSem(env, s, c1);
    PreservesInStep(c1, c2);
    Settle(c2, r)
  }

  /** executeLane from the step at index i on: every step in turn until one fails. */
  function RunSteps(env: Env, lane: seq<Step>, c: Ctx, i: nat): (r: (Ctx, Option<Thrown>))
    requires i <= |lane|
    decreases LaneSize(lane), 0, |lane| - i
  {
    if i == |lane| then (c, None)
    else
      StepSmallerThanLane(lane, i);
      var (d, error) := StepOnce(env, lane[i], c);
      if error.Some? then (d, error) else RunSteps(env, lane, d, i + 1)
  }

  /** executeLane(root, ctx): the context's lane run from its first step. */
  function RunLane(env: Env, c: Ctx): (Ctx, Option<Thrown>)
    decreases LaneSize(c.lane), 1
  {
    RunSteps(env, c.lane, c, 0)
  }
}
