/**
 * The execution context of core/src/context/context.ts: where an execution
 * came from, its lane, the records of the steps it ran, the step currently
 * running, the payload and metadata, and its state, which stays `running`
 * until the finalize step terminates it.
 *
 * `Ctx` is the context as a value, and the functions over it say what each
 * operation does; the class `HodrContext` is the mutable object the engine
 * passes around, and each of its methods is proved to act on `Model()` as
 * the function of the same name says.
 */
module Context {
  import opened Wrappers
  import opened Values
  import opened Types
  import Steps

  /** Who started the execution: the origin's name, the input and its variant. */
  datatype OriginId = OriginId(name: string, input: string, variant: string)

  /** `'running'`, or the final state the finalize step left. */
  datatype ContextStatus = Running | Ended(status: StepStatus)

  /**
   * Which record `currentStep` refers to: none (null), the initial step, the
   * lane step at an index of `steps`, or the finalize step.
   */
  datatype StepRef = NoStep | InitialStep | LaneStep(index: nat) | FinalizeStep

  /** `ExecutionContextParams`. */
  datatype ContextParams = ContextParams(
    origin: OriginId,
    lane: seq<Steps.Step>,
    initialStep: StepExecution,
    currentStep: StepRef,
    finalizeStep: Option<StepExecution>,
    payload: Value,
    metadata: map<string, Value>,
    inputTopic: string,
    atoms: map<string, Value>)

  /** A context as a value. */
  datatype Ctx = Ctx(
    origin: OriginId,
    state: ContextStatus,
    lane: seq<Steps.Step>,
    steps: seq<StepExecution>,
    initialStep: StepExecution,
    currentStep: StepRef,
    finalizeStep: Option<StepExecution>,
    payload: Value,
    metadata: map<string, Value>,
    inputTopic: string,
    atoms: map<string, Value>)

  /**
   * `FinalizeParams`: name, status, input, and the optional metadata whose
   * input and output descriptions and journal seed the finalize record.
   */
  datatype FinalizeParams = FinalizeParams(
    name: string,
    status: StepStatus,
    input: Value,
    inputDescription: Option<string>,
    outputDescription: Option<string>,
    journal: Option<seq<JournalEntry>>)

  /** `new HodrContext(params)`: running, with no step records yet. */
  function NewContext(p: ContextParams): (c: Ctx)
    ensures c.state == Running && c.steps == []
    ensures c.origin == p.origin && c.lane == p.lane && c.payload == p.payload
    ensures c.currentStep == p.currentStep && c.finalizeStep == p.finalizeStep
  {
    Ctx(p.origin, Running, p.lane, [], p.initialStep, p.currentStep, p.finalizeStep,
        p.payload, p.metadata, p.inputTopic, p.atoms)
  }

  /** `currentStep` refers to a record that exists. */
  predicate CurrentValid(c: Ctx)
  {
    match c.currentStep
    case NoStep => false
    case InitialStep => true
    case LaneStep(i) => i < |c.steps|
    case FinalizeStep => c.finalizeStep.Some?
  }

  /** The record `currentStep` refers to. */
  function CurrentRecord(c: Ctx): StepExecution
    requires CurrentValid(c)
  {
    match c.currentStep
    case InitialStep => c.initialStep
    case LaneStep(i) => c.steps[i]
    case FinalizeStep => c.finalizeStep.value
  }

  /** `ctx.currentStep?.name`. */
  function CurrentName(c: Ctx): Value
  {
    if CurrentValid(c) then Str(CurrentRecord(c).name) else Undefined
  }

  /** The context with the record `currentStep` refers to replaced. */
  function WithCurrentRecord(c: Ctx, r: StepExecution): (d: Ctx)
    requires CurrentValid(c)
    ensures CurrentValid(d) && CurrentRecord(d) == r
  {
    match c.currentStep
    case InitialStep => c.(initialStep := r)
    case LaneStep(i) => c.(steps := c.steps[i := r])
    case FinalizeStep => c.(finalizeStep := Some(r))
  }

  /** A record with one more entry at the end of its journal. */
  function WithEntry(r: StepExecution, e: JournalEntry): (s: StepExecution)
    ensures s.metadata.journal == r.metadata.journal + [e]
    ensures s.(metadata := r.metadata) == r
    ensures s.metadata.(journal := r.metadata.journal) == r.metadata
  {
    r.(metadata := r.metadata.(journal := r.metadata.journal + [e]))
  }

  /**
   * addJournalEntry(entry): the entry is appended to the journal of the
   * current record, and nothing else changes. A context with no current step
   * cannot take an entry (the source dereferences it unconditionally).
   */
  function AddJournal(c: Ctx, e: JournalEntry): (d: Ctx)
    requires CurrentValid(c)
    ensures CurrentValid(d) && CurrentRecord(d) == WithEntry(CurrentRecord(c), e)
    ensures d.currentStep == c.currentStep && |d.steps| == |c.steps|
    ensures d.(steps := c.steps, initialStep := c.initialStep, finalizeStep := c.finalizeStep) == c
    ensures forall j :: 0 <= j < |c.steps| && c.currentStep != LaneStep(j) ==> d.steps[j] == c.steps[j]
    ensures c.currentStep != InitialStep ==> d.initialStep == c.initialStep
    ensures c.currentStep != FinalizeStep ==> d.finalizeStep == c.finalizeStep
  {
    WithCurrentRecord(c, WithEntry(CurrentRecord(c), e))
  }

  /** The append of several entries, one after the other. */
  function AddJournals(c: Ctx, es: seq<JournalEntry>): (d: Ctx)
    requires CurrentValid(c)
    ensures CurrentValid(d)
    decreases |es|
  {
    if |es| == 0 then c else AddJournals(AddJournal(c, es[0]), es[1..])
  }

  /** What a user function handed the context can read of it. */
  function View(c: Ctx): Steps.ContextView
  {
    Steps.ContextView(c.payload, c.metadata)
  }

  /** The finalize record `beginFinalizationStep` builds from its parameters. */
  function FinalizeRecord(p: FinalizeParams): (r: StepExecution)
    ensures r.kind == FinalizeKind && r.name == p.name && r.state == p.status && r.input == p.input
    ensures r.metadata.journal == (if p.journal.Some? then p.journal.value else [])
    ensures r.output == Undefined
  {
    StepExecution(
      FinalizeKind, p.name, p.status, p.input, Undefined,
      StepMetadata(p.inputDescription, p.outputDescription, if p.journal.Some? then p.journal.value else []))
  }

  /**
   * beginFinalizationStep(params): the finalize record is installed and made
   * the current step; the lane records are untouched.
   */
  function BeginFinalization(c: Ctx, p: FinalizeParams): (d: Ctx)
    ensures d.finalizeStep == Some(FinalizeRecord(p)) && d.currentStep == FinalizeStep
    ensures CurrentValid(d) && CurrentRecord(d) == FinalizeRecord(p)
    ensures d.(finalizeStep := c.finalizeStep, currentStep := c.currentStep) == c
  {
    c.(finalizeStep := Some(FinalizeRecord(p)), currentStep := FinalizeStep)
  }

  /** The state `terminate` promotes a finalize state to. */
  function Promoted(s: StepStatus): (t: StepStatus)
    ensures t != Pending
    ensures s != Pending ==> t == s
  {
    if s == Pending then Finalized else s
  }

  /**
   * terminate(): a pending finalize step becomes finalized, the context takes
   * the finalize step's state, and there is no current step any more. The
   * source dereferences the finalize step, so one must exist.
   */
  function Terminated(c: Ctx): (d: Ctx)
    requires c.finalizeStep.Some?
    ensures d.finalizeStep.Some? && d.state == Ended(d.finalizeStep.value.state)
    ensures d.finalizeStep.value == c.finalizeStep.value.(state := Promoted(c.finalizeStep.value.state))
    ensures d.currentStep == NoStep
    ensures d.(state := c.state, currentStep := c.currentStep, finalizeStep := c.finalizeStep) == c
  {
    var f := c.finalizeStep.value;
    var promoted := f.(state := Promoted(f.state));
    c.(finalizeStep := Some(promoted), state := Ended(promoted.state), currentStep := NoStep)
  }

  /**
   * fork(lane): a context of its own for a lane, starting from the parent's
   * payload, with its own (empty) step list, no current step and no finalize
   * step, sharing origin, initial step, metadata, input topic and atoms.
   */
  function ForkOf(c: Ctx, lane: seq<Steps.Step>): (f: Ctx)
    ensures f.payload == c.payload && f.steps == [] && f.lane == lane && f.state == Running
    ensures f.atoms == c.atoms && f.metadata == c.metadata && f.origin == c.origin
  {
    Ctx(c.origin, Running, lane, [], c.initialStep, NoStep, None, c.payload, c.metadata, c.inputTopic, c.atoms)
  }

  // ---------------------------------------------------------------------
  // Properties

  /** A terminated context has ended as finalized or error, never pending. */
  lemma TerminatedStateIsFinal(c: Ctx)
    requires c.finalizeStep.Some?
    ensures Terminated(c).state == Ended(Finalized) || Terminated(c).state == Ended(Error)
    ensures c.finalizeStep.value.state == Error <==> Terminated(c).state == Ended(Error)
    ensures Terminated(c).steps == c.steps
  {
  }

  /** Terminating twice is terminating once. */
  lemma TerminateIdempotent(c: Ctx)
    requires c.finalizeStep.Some?
    ensures Terminated(Terminated(c)) == Terminated(c)
  {
  }

  /** After finalization has begun, journal entries go to the finalize record only. */
  lemma JournalAfterFinalization(c: Ctx, p: FinalizeParams, e: JournalEntry)
    ensures var d := AddJournal(BeginFinalization(c, p), e);
      && d.finalizeStep == Some(WithEntry(FinalizeRecord(p), e))
      && d.steps == c.steps && d.initialStep == c.initialStep && d.payload == c.payload
  {
  }

  /** Appending several entries appends them in order to the current journal. */
  lemma {:induction false} AddJournalsAppends(c: Ctx, es: seq<JournalEntry>)
    requires CurrentValid(c)
    ensures AddJournals(c, es).currentStep == c.currentStep
    ensures CurrentRecord(AddJournals(c, es)).metadata.journal == CurrentRecord(c).metadata.journal + es
    ensures CurrentRecord(AddJournals(c, es)).(metadata := CurrentRecord(c).metadata) == CurrentRecord(c)
    ensures |AddJournals(c, es).steps| == |c.steps|
    ensures AddJournals(c, es).(steps := c.steps, initialStep := c.initialStep, finalizeStep := c.finalizeStep) == c
    ensures forall j :: 0 <= j < |c.steps| && c.currentStep != LaneStep(j) ==> AddJournals(c, es).steps[j] == c.steps[j]
    decreases |es|
  {
    if |es| > 0 {
      var c1 := AddJournal(c, es[0]);
      AddJournalsAppends(c1, es[1..]);
      assert [es[0]] + es[1..] == es;
    }
  }

  // ---------------------------------------------------------------------
  // The mutable context

  class HodrContext {
    var origin: OriginId
    var state: ContextStatus
    var lane: seq<Steps.Step>
    var steps: seq<StepExecution>
    var initialStep: StepExecution
    var currentStep: StepRef
    var finalizeStep: Option<StepExecution>
    var payload: Value
    var metadata: map<string, Value>
    var inputTopic: string
    var atoms: map<string, Value>

    /** The context's fields as a value. */
    function Model(): Ctx
      reads this
    {
      Ctx(origin, state, lane, steps, initialStep, currentStep, finalizeStep, payload, metadata, inputTopic, atoms)
    }

    constructor(p: ContextParams)
      ensures Model() == NewContext(p)
    {
      origin := p.origin;
      state := Running;
      lane := p.lane;
      steps := [];
      initialStep := p.initialStep;
      currentStep := p.currentStep;
      finalizeStep := p.finalizeStep;
      payload := p.payload;
      metadata := p.metadata;
      inputTopic := p.inputTopic;
      atoms := p.atoms;
    }

    /** addJournalEntry(entry), which returns the context itself. */
    method AddJournalEntry(e: JournalEntry) returns (self: HodrContext)
      requires CurrentValid(Model())
      modifies this
      ensures Model() == AddJournal(old(Model()), e)
      ensures self == this
    {
      match currentStep {
      case InitialStep =>
        initialStep := WithEntry(initialStep, e);
      case LaneStep(i) =>
        steps := steps[i := WithEntry(steps[i], e)];
      case FinalizeStep =>
        finalizeStep := Some(WithEntry(finalizeStep.value, e));
      }
      self := this;
    }

    /** beginFinalizationStep(params), which returns the finalize record. */
    method BeginFinalizationStep(p: FinalizeParams) returns (f: StepExecution)
      modifies this
      ensures Model() == BeginFinalization(old(Model()), p)
      ensures f == FinalizeRecord(p)
    {
      finalizeStep := Some(FinalizeRecord(p));
      currentStep := FinalizeStep;
      f := finalizeStep.value;
    }

    /** terminate(). */
    method Terminate()
      requires finalizeStep.Some?
      modifies this
      ensures Model() == Terminated(old(Model()))
    {
      if finalizeStep.value.state == Pending {
        finalizeStep := Some(finalizeStep.value.(state := Finalized));
      }
      state := Ended(finalizeStep.value.state);
      currentStep := NoStep;
    }

    /** fork(lane). */
    method Fork(forLane: seq<Steps.Step>) returns (f: HodrContext)
      ensures fresh(f)
      ensures f.Model() == ForkOf(Model(), forLane)
    {
      f := new HodrContext(ContextParams(origin, forLane, initialStep, NoStep, None, payload, metadata, inputTopic, atoms));
    }
  }
}
