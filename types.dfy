/**
 * The execution data model of core/src/engine/types.ts: step statuses, step
 * records with their journals, HodrError construction, and the values a
 * failing step can raise together with the normaliser that turns any of
 * them into a HodrError.
 */
module Types {
  import opened Wrappers
  import opened Values
  import Js

  /** A step status is exactly one of 'pending', 'finalized' or 'error'. */
  datatype StepStatus = Pending | Finalized | Error

  /** The `type` tag that distinguishes the initial and the finalize step from lane steps. */
  datatype StepKind = LaneKind | InitialKind | FinalizeKind

  datatype JournalEntry = JournalEntry(
    id: string,
    title: string,
    description: Option<string>,
    entry: Value,
    typeHint: Option<string>)

  /** The input and output descriptions and the journal of one step. */
  datatype StepMetadata = StepMetadata(
    inputDescription: Option<string>,
    outputDescription: Option<string>,
    journal: seq<JournalEntry>)

  /** A step record; an absent `output` is `Undefined`. Timestamps are not modelled. */
  datatype StepExecution = StepExecution(
    kind: StepKind,
    name: string,
    state: StepStatus,
    input: Value,
    output: Value,
    metadata: StepMetadata)

  const EmptyStepMetadata := StepMetadata(None, None, [])

  /** `new HodrError(message, contextual, code, detail, cause)`, where `None` is an
   *  argument left undefined so that its default applies. */
  function NewHodrError(
    message: string,
    contextual: Option<map<string, Value>>,
    code: Option<string>,
    detail: Value,
    cause: Value): HodrError
  {
    HodrError(
      message,
      if contextual.Some? then contextual.value else map[],
      if code.Some? then code.value else "internal-error",
      detail,
      cause)
  }

  /** `new HodrError(message)`. */
  function SimpleHodrError(message: string): HodrError
  {
    NewHodrError(message, None, None, Undefined, Undefined)
  }

  /** Omitted arguments default to no contextual data and the code 'internal-error'. */
  lemma HodrErrorDefaults(message: string)
    ensures SimpleHodrError(message).code == "internal-error"
    ensures SimpleHodrError(message).contextual == map[]
    ensures SimpleHodrError(message).detail == Undefined && SimpleHodrError(message).cause == Undefined
  {
  }

  /** Every argument given is stored as given, and the error reads back its message and
   *  the name 'HodrError'. */
  lemma HodrErrorStoresArguments(message: string, contextual: map<string, Value>, code: string, detail: Value, cause: Value)
    ensures var e := NewHodrError(message, Some(contextual), Some(code), detail, cause);
      e == HodrError(message, contextual, code, detail, cause)
      && Js.Get(ErrorVal(e), "message") == Str(message)
      && Js.Get(ErrorVal(e), "name") == Str("HodrError")
      && Js.Get(ErrorVal(e), "code") == Str(code)
  {
  }

  /**
   * A value raised by a step or a user function: a HodrError instance, some
   * other `Error` (a TypeError, for instance), or any other value. An empty or
   * absent stack is `None` or `Some("")`.
   */
  datatype Thrown =
    | Raised(err: HodrError, stack: Option<string>)
    | NativeError(name: string, message: string, stack: Option<string>)
    | Other(value: Value)

  /** The first line of the stack text V8 attaches to an error; the frame lines are not modelled. */
  function StackHeader(name: string, message: string): string
  {
    if message == "" then name else name + ": " + message
  }

  /** `throw e` for a HodrError created by the core. */
  function Throw(e: HodrError): Thrown
  {
    Raised(e, Some(StackHeader("HodrError", e.message)))
  }

  /** `throw new Error(message)` / `throw new TypeError(message)`. */
  function ThrowNative(name: string, message: string): Thrown
  {
    NativeError(name, message, Some(StackHeader(name, message)))
  }

  /** `e instanceof Error`. */
  predicate IsErrorInstance(t: Thrown)
  {
    t.Raised? || t.NativeError? || (t.Other? && t.value.ErrorVal?)
  }

  /** `if (thrown)`: a raised error is an object and so truthy; other values by their truthiness. */
  predicate ThrownTruthy(t: Thrown)
  {
    if t.Other? then Js.Truthy(t.value) else true
  }

  /**
   * The normaliser (modelled on the ladder in the Koa adapter's error path):
   * a HodrError passes through, any other Error becomes a HodrError whose code
   * is the error's name, a string becomes the message with the default code,
   * and anything else is printed with code 'unknown-error'.
   */
  function FromThrown(t: Thrown): HodrError
  {
    match t
    case Raised(e, _) => e
    case NativeError(name, message, _) => NewHodrError(message, Some(map[]), Some(name), Undefined, Undefined)
    case Other(v) =>
      if v.ErrorVal? then v.err
      else if v.Str? then SimpleHodrError(v.s)
      else NewHodrError(Js.ToStr(v), Some(map[]), Some("unknown-error"), Undefined, Undefined)
  }

  /** Normalising is idempotent: re-raising a normalised error normalises to itself. */
  lemma FromThrownIdempotent(t: Thrown, stack: Option<string>)
    ensures FromThrown(Raised(FromThrown(t), stack)) == FromThrown(t)
    ensures FromThrown(Other(ErrorVal(FromThrown(t)))) == FromThrown(t)
  {
  }

  /**
   * The diagnostic journal entry the lane runner appends to a failing step
   * (core/src/engine/execution.ts): the stack of an Error that has one, the
   * message of one that has none, and `String(e)` for any other value.
   */
  function Diagnostic(t: Thrown): (d: JournalEntry)
    ensures d.id == "error" && d.title == "Error"
    ensures IsErrorInstance(t) <==> d.typeHint.Some?
  {
    match t
    case Raised(e, stack) =>
      if stack.Some? && stack.value != "" then
        JournalEntry("error", "Error", Some("HodrError"), Str(stack.value), Some("stacktrace"))
      else JournalEntry("error", "Error", Some("HodrError"), Str(e.message), Some("string"))
    case NativeError(name, message, stack) =>
      if stack.Some? && stack.value != "" then
        JournalEntry("error", "Error", Some(name), Str(stack.value), Some("stacktrace"))
      else JournalEntry("error", "Error", Some(name), Str(message), Some("string"))
    case Other(v) =>
      if v.ErrorVal? then JournalEntry("error", "Error", Some("HodrError"), Str(v.err.message), Some("string"))
      else JournalEntry("error", "Error", Some(""), Str(Js.ToStr(v)), None)
  }

  /** The three diagnostic shapes. */
  lemma DiagnosticShapes(t: Thrown)
    ensures t.Raised? && t.stack.Some? && t.stack.value != "" ==>
      Diagnostic(t).typeHint == Some("stacktrace") && Diagnostic(t).entry == Str(t.stack.value)
    ensures t.NativeError? && t.stack.Some? && t.stack.value != "" ==>
      Diagnostic(t).typeHint == Some("stacktrace") && Diagnostic(t).entry == Str(t.stack.value)
        && Diagnostic(t).description == Some(t.name)
    ensures t.NativeError? && (t.stack.None? || t.stack.value == "") ==>
      Diagnostic(t).typeHint == Some("string") && Diagnostic(t).entry == Str(t.message)
    ensures !IsErrorInstance(t) ==>
      Diagnostic(t).typeHint == None && Diagnostic(t).entry == Str(Js.ToStr(t.value))
        && Diagnostic(t).description == Some("")
  {
  }
}
