/**
 * Origins of executions, from core/src/lane/origin.ts: the context an input
 * starts an execution with, the module origin that registers named
 * functions, and the function input whose invocation runs its lane between
 * a finalized initial step and a finalize step, then terminates the context.
 */
module Origin {
  import opened Wrappers
  import opened Values
  import opened Types
  import opened Steps
  import opened Context
  import opened LaneSemantics
  import LaneProperties
  import Builder
  import Execution
  import Tracker

  // ---------------------------------------------------------------------
  // AbstractInput.newExecution

  /**
   * The parameters `newExecution(payload, initialStep, metadata)` builds a
   * context from: the origin names the origin, the input and its variant,
   * the initial step is current, the metadata defaults to `{}`, the input
   * topic is empty and there are no atoms.
   */
  function ExecutionParams(originName: string, inputName: string, variant: string, lane: seq<Step>,
                           payload: Value, initialStep: StepExecution, metadata: Option<map<string, Value>>): (p: ContextParams)
    ensures p.origin == OriginId(originName, inputName, variant)
    ensures p.lane == lane && p.payload == payload && p.initialStep == initialStep
    ensures p.currentStep == InitialStep && p.finalizeStep.None?
    ensures p.metadata == (if metadata.Some? then metadata.value else map[])
    ensures p.inputTopic == "" && p.atoms == map[]
  {
    ContextParams(OriginId(originName, inputName, variant), lane, initialStep, InitialStep, None, payload,
      if metadata.Some? then metadata.value else map[], "", map[])
  }

  /** A new execution context is running, has no lane records, and its current record is the initial step. */
  lemma NewExecutionStarts(originName: string, inputName: string, variant: string, lane: seq<Step>,
                           payload: Value, initialStep: StepExecution)
    ensures var c := NewContext(ExecutionParams(originName, inputName, variant, lane, payload, initialStep, None));
      && c.state == Running && c.steps == [] && c.metadata == map[]
      && CurrentValid(c) && CurrentRecord(c) == initialStep
      && c.origin.name == originName && c.origin.input == inputName && c.origin.variant == variant
  {
  }

  /** newExecution(payload, initialStep, metadata). */
  method NewExecution(originName: string, inputName: string, variant: string, lane: seq<Step>,
                      payload: Value, initialStep: StepExecution, metadata: Option<map<string, Value>>) returns (ctx: HodrContext)
    ensures fresh(ctx)
    ensures ctx.Model() == NewContext(ExecutionParams(originName, inputName, variant, lane, payload, initialStep, metadata))
  {
    ctx := new HodrContext(ExecutionParams(originName, inputName, variant, lane, payload, initialStep, metadata));
  }

  // ---------------------------------------------------------------------
  // FunctionInput

  const FunctionVariant := "function"
  const PrepareName := "function-prepare"
  const FinalizeName := "function-finalize"

  /** buildInitialStep(arg): an initial record, already finalized, whose input and output are the argument. */
  function FunctionInitialStep(arg: Value): (s: StepExecution)
    ensures s.kind == InitialKind && s.name == PrepareName && s.state == Finalized
    ensures s.input == arg && s.output == arg && s.metadata.journal == []
  {
    StepExecution(InitialKind, PrepareName, Finalized, arg, arg, EmptyStepMetadata)
  }

  /** `if (thrown)`: the lane threw something truthy. */
  predicate Failed(error: Option<Thrown>)
  {
    error.Some? && ThrownTruthy(error.value)
  }

  /** The finalize step invoke begins: `error` with the normalised error as input, or `finalized` with the payload. */
  function FunctionFinalizeParams(d: Ctx, error: Option<Thrown>): (p: FinalizeParams)
    ensures p.name == FinalizeName
    ensures p.status == (if Failed(error) then Error else Finalized)
    ensures p.input == (if Failed(error) then ErrorVal(FromThrown(error.value)) else d.payload)
  {
    FinalizeParams(FinalizeName, if Failed(error) then Error else Finalized,
      if Failed(error) then ErrorVal(FromThrown(error.value)) else d.payload, None, None, None)
  }

  /**
   * What invoke does once the lane has run, leaving d and what it threw:
   * begin the finalize step, terminate, then re-throw or return the payload.
   */
  function FunctionFinish(d: Ctx, error: Option<Thrown>): (r: (Ctx, Result<Value, Thrown>))
    ensures r.0.finalizeStep.Some? && r.0.finalizeStep.value.kind == FinalizeKind
    ensures r.0.finalizeStep.value.name == FinalizeName
    ensures r.0.state == Ended(if Failed(error) then Error else Finalized)
    ensures r.0.finalizeStep.value.state == (if Failed(error) then Error else Finalized)
    ensures r.0.finalizeStep.value.input == (if Failed(error) then ErrorVal(FromThrown(error.value)) else d.payload)
    ensures r.0.currentStep == NoStep
    ensures r.0.steps == d.steps && r.0.payload == d.payload && r.0.initialStep == d.initialStep
    ensures Failed(error) ==> r.1 == Err(error.value)
    ensures !Failed(error) ==> r.1 == Ok(d.payload)
  {
    var c := Terminated(BeginFinalization(d, FunctionFinalizeParams(d, error)));
    (c, if Failed(error) then Err(error.value) else Ok(c.payload))
  }

  /** An invocation from the started context c: the lane run, then the finish. */
  ghost function FunctionRun(env: Env, c: Ctx): (Ctx, Result<Value, Thrown>)
  {
    var (d, error) := RunLane(env, c);
    FunctionFinish(d, error)
  }

  /** The context a function input starts for an argument. */
  function FunctionStart(moduleName: string, name: string, lane: seq<Step>, arg: Value): Ctx
  {
    NewContext(ExecutionParams(moduleName, name, FunctionVariant, lane, arg, FunctionInitialStep(arg), None))
  }

  /**
   * A completed invocation returns the lane's last output (the argument when
   * the lane is empty), every step record finalized, and ends finalized with
   * the prepare step untouched.
   */
  lemma InvokeCompletes(env: Env, moduleName: string, name: string, lane: seq<Step>, arg: Value, d: Ctx)
    requires RunLane(env, FunctionStart(moduleName, name, lane, arg)) == (d, None)
    ensures var (e, r) := FunctionFinish(d, None);
      && |e.steps| == |lane|
      && r == Ok(if |lane| == 0 then arg else e.steps[|lane| - 1].output)
      && (forall k :: 0 <= k < |lane| ==> e.steps[k].state == Finalized)
      && e.state == Ended(Finalized) && e.finalizeStep.value.input == r.value
      && e.initialStep == FunctionInitialStep(arg)
      && e.origin == OriginId(moduleName, name, FunctionVariant)
  {
    var c := FunctionStart(moduleName, name, lane, arg);
    LaneProperties.LaneCompletes(env, c, d);
    LaneProperties.LaneKeepsFrame(env, c, d, None);
  }

  /**
   * A failed invocation re-throws what the lane threw, after finalizing with
   * `error` and the normalised error as input; the failing step is the last
   * record and is marked as failed.
   */
  lemma InvokeFails(env: Env, moduleName: string, name: string, lane: seq<Step>, arg: Value, d: Ctx, t: Thrown)
    requires RunLane(env, FunctionStart(moduleName, name, lane, arg)) == (d, Some(t))
    requires ThrownTruthy(t)
    ensures var (e, r) := FunctionFinish(d, Some(t));
      && r == Err(t)
      && e.state == Ended(Error)
      && e.finalizeStep.value.state == Error
      && e.finalizeStep.value.input == ErrorVal(FromThrown(t))
      && 0 < |e.steps| <= |lane|
      && e.steps[|e.steps| - 1].state == Error
      && e.steps[|e.steps| - 1].name == StepName(lane[|e.steps| - 1])
      && e.initialStep == FunctionInitialStep(arg)
  {
    var c := FunctionStart(moduleName, name, lane, arg);
    LaneProperties.LaneStopsAtFailure(env, c, d, Some(t));
    LaneProperties.LaneKeepsFrame(env, c, d, Some(t));
  }

  /** A falsy thrown value (`throw 0`, `throw ''`) slips past `if (thrown)`: the invocation returns the payload. */
  lemma InvokeFalsyThrow(d: Ctx, t: Thrown)
    requires !ThrownTruthy(t)
    ensures FunctionFinish(d, Some(t)).1 == Ok(d.payload)
    ensures FunctionFinish(d, Some(t)).0.state == Ended(Finalized)
  {
  }

  /** A `FunctionInput`: a named lane inside a module origin. */
  class FunctionInput {
    const moduleName: string
    const name: string
    const lane: Builder.Lane

    constructor(moduleName: string, name: string, lane: Builder.Lane)
      ensures this.moduleName == moduleName && this.name == name && this.lane == lane
    {
      this.moduleName := moduleName;
      this.name := name;
      this.lane := lane;
    }

    /** variant(). */
    function Variant(): (v: string)
      ensures v == FunctionVariant
    {
      FunctionVariant
    }

    /**
     * The lane run and the finalization, which the trackers do not take part
     * in; `recorded` lists the contexts the lane handed to `record`.
     */
    method RunAndFinish(root: Execution.Root, env: Env, ctx: HodrContext)
      returns (r: Result<Value, Thrown>, recorded: seq<HodrContext>)
      requires env == Execution.EnvOf(root)
      modifies ctx
      ensures (ctx.Model(), r) == FunctionRun(env, old(ctx.Model()))
      ensures |recorded| > 0 && recorded[0] == ctx
      ensures Execution.DistinctContexts(recorded)
      ensures forall i :: 1 <= i < |recorded| ==> fresh(recorded[i])
    {
      var error;
      error, recorded := Execution.ExecuteLane(root, env, ctx);
      ghost var d := ctx.Model();
      var failed := error.Some? && ThrownTruthy(error.value);
      var _ := ctx.BeginFinalizationStep(FinalizeParams(FinalizeName, if failed then Error else Finalized,
        if failed then ErrorVal(FromThrown(error.value)) else ctx.payload, None, None, None));
      ctx.Terminate();
      if failed {
        r := Err(error.value);
      } else {
        r := Ok(ctx.payload);
      }
      assert (ctx.Model(), r) == FunctionFinish(d, error);
    }

    /**
     * invoke(arg): a new execution of the lane on the argument, which every
     * tracker records before any step runs, followed by the contexts of the
     * lanes its steps forked: all of them new, and each recorded once.
     */
    method Invoke(root: Execution.Root, env: Env, trackers: seq<Tracker.MemoryTracker>, arg: Value)
      returns (r: Result<Value, Thrown>, ctx: HodrContext, recorded: seq<HodrContext>)
      requires env == Execution.EnvOf(root) && Tracker.Distinct(trackers)
      modifies Tracker.Objects(trackers)
      ensures fresh(ctx)
      ensures (ctx.Model(), r) == FunctionRun(env, FunctionStart(moduleName, name, lane.steps, arg))
      ensures |recorded| > 0 && recorded[0] == ctx
      ensures Execution.DistinctContexts(recorded)
      ensures forall i :: 0 <= i < |recorded| ==> fresh(recorded[i])
      ensures forall t :: t in trackers ==> t.contexts == old(t.contexts) + recorded
    {
      ctx := NewExecution(moduleName, name, Variant(), lane.steps, arg, FunctionInitialStep(arg), None);
      ghost var steps := lane.steps;
      assert ctx.Model() == FunctionStart(moduleName, name, steps, arg);
      r, recorded := RunAndFinish(root, env, ctx);
      ghost var finished := ctx.Model();
      Tracker.RecordEach(trackers, recorded);
      assert ctx.Model() == finished && lane.steps == steps;
    }
  }

  // ---------------------------------------------------------------------
  // ModuleOrigin

  /** The inputs registered under the given names, in that order. */
  function InputsOf(functions: map<string, FunctionInput>, names: seq<string>): (r: seq<FunctionInput>)
    requires forall k :: k in names ==> k in functions
    ensures |r| == |names| && forall i :: 0 <= i < |names| ==> r[i] == functions[names[i]]
  {
    if names == [] then [] else [functions[names[0]]] + InputsOf(functions, names[1..])
  }

  function NoSuchFunction(name: string): Thrown
  {
    Throw(SimpleHodrError("No such function: '" + name + "'"))
  }

  /**
   * A `ModuleOrigin`: function inputs by name. `names` is the order in which
   * the names were first registered, which `Object.values` lists them in.
   */
  class ModuleOrigin {
    const name: string
    var functions: map<string, FunctionInput>
    var names: seq<string>

    ghost predicate Valid()
      reads this
    {
      && (forall k :: k in names <==> k in functions)
      && (forall i, j :: 0 <= i < j < |names| ==> names[i] != names[j])
    }

    constructor(name: string)
      ensures this.name == name && functions == map[] && names == [] && Valid()
    {
      this.name := name;
      functions := map[];
      names := [];
    }

    /** inputs(): the registered function inputs, in registration order. */
    function Inputs(): (r: seq<FunctionInput>)
      reads this
      requires Valid()
      ensures |r| == |names| && forall i :: 0 <= i < |names| ==> r[i] == functions[names[i]]
    {
      InputsOf(functions, names)
    }

    /**
     * function(name): a fresh input with an empty lane under the name,
     * replacing any earlier one, and a builder for its lane.
     */
    method Function(fnName: string) returns (b: Builder.LaneBuilder)
      requires Valid()
      modifies this
      ensures Valid()
      ensures fnName in functions && fresh(functions[fnName]) && fresh(functions[fnName].lane)
      ensures functions == old(functions)[fnName := functions[fnName]]
      ensures functions[fnName].moduleName == name && functions[fnName].name == fnName
      ensures functions[fnName].lane.steps == []
      ensures names == if fnName in old(functions) then old(names) else old(names) + [fnName]
      ensures fresh(b) && b.lane == functions[fnName].lane
    {
      var lane := new Builder.Lane([]);
      var f := new FunctionInput(name, fnName, lane);
      if fnName !in functions {
        names := names + [fnName];
      }
      functions := functions[fnName := f];
      b := new Builder.LaneBuilder(lane);
    }

    /** getFunction(name): the input whose invoke the returned function calls, or "No such function". */
    method GetFunction(fnName: string) returns (r: Result<FunctionInput, Thrown>)
      ensures fnName in functions ==> r == Ok(functions[fnName])
      ensures fnName !in functions ==> r == Err(NoSuchFunction(fnName))
    {
      if fnName in functions {
        r := Ok(functions[fnName]);
      } else {
        r := Err(NoSuchFunction(fnName));
      }
    }
  }

  /** The message of getFunction's error names the function asked for. */
  lemma NoSuchFunctionMessage(name: string)
    ensures FromThrown(NoSuchFunction(name)).message == "No such function: '" + name + "'"
    ensures FromThrown(NoSuchFunction(name)).code == "internal-error"
  {
  }
}
