/**
 * The step variants of core/src/lane/step.ts and the ad-hoc steps the lane
 * builder of core/src/lane/builder.ts registers, as values: what each step
 * holds once constructed, the name its record carries, the checks its
 * constructor makes, and the pieces of its behaviour that do not touch the
 * execution context.
 */
module Steps {
  import opened Wrappers
  import opened Values
  import opened Types
  import Js
  import ObjectPath
  import Transform
  import Validate
  import HttpStatus
  import Http

  /**
   * What a user function can read of the execution context it is handed:
   * the payload and the execution metadata.
   */
  datatype ContextView = ContextView(payload: Value, metadata: map<string, Value>)

  /**
   * What a user function gives back: its result, and the entries it adds,
   * in order, with `ctx.addJournalEntry` before it returns or throws.
   */
  datatype UserOutcome = UserOutcome(result: Result<Value, Thrown>, journal: seq<JournalEntry>)

  /**
   * A user function over the payload, the context and the atoms: a
   * transform function or a predicate, `fn(ctx.payload, ctx, ctx.atoms())`.
   */
  type UserFn = (Value, ContextView, map<string, Value>) -> UserOutcome

  /** The predicate of an EnsureStep: a function, or a compiled path expression and its source text. */
  datatype Predicate = PredicateFunction(fn: UserFn) | PredicateExpression(source: string, node: ObjectPath.Node)

  /** The validator object of a ValidateStep: a function, or an object a registered validator understands. */
  datatype ValidatorArg = ValidatorFunction(fn: Value -> Result<Value, Thrown>) | ValidatorObject(schema: Value)

  /**
   * A validator registered with `use`: whether it understands a validator
   * object, and `validate(ctx, validatorObject, targetPath)`.
   */
  datatype Validator = Validator(
    canValidate: Value -> bool,
    validate: (ContextView, Value, Option<string>) -> UserOutcome)

  /** One lane of a ParallelStep: the steps it runs in a context of its own. */
  datatype ParallelLane = ParallelLane(steps: seq<Step>)

  /**
   * One step of a lane. `UndefinedParallelStep` is a ParallelStep that was
   * constructed with `undefined` for its lanes.
   */
  datatype Step =
    | CallStep(destination: string, path: string, params: Option<Http.RequestParameters>)
    | ExtractStep(directive: Transform.Directive)
    | TransformStep(field: Option<string>, fn: UserFn)
    | EnsureStep(name: string, condition: Predicate, internalErrorCode: Value, httpErrorCode: Value)
    | ValidateStep(validator: ValidatorArg, targetPath: Option<string>)
    | ParallelStep(lanes: seq<ParallelLane>)
    | UndefinedParallelStep
    | SequenceStep(steps: seq<Step>)
    | MapStatusCodeStep(clauses: seq<Transform.StatusClause>)
    | StatusMatcherStep(patterns: seq<Validate.StatusPattern>)
    | LiteralStep(value: Value)
    | ExtractBodyStep(bodyPath: Option<Transform.PathRef>)

  /** The `name` of a step, which its execution record carries. */
  function StepName(s: Step): string
  {
    match s
    case CallStep(destination, _, _) => "http-req-" + destination
    case ExtractStep(_) => "extract"
    case TransformStep(_, _) => "transform"
    case EnsureStep(name, _, _, _) => name
    case ValidateStep(_, _) => "validate"
    case ParallelStep(_) => "parallel"
    case UndefinedParallelStep => "parallel"
    case SequenceStep(_) => "sequence"
    case MapStatusCodeStep(_) => "map-status-code"
    case StatusMatcherStep(_) => Validate.MatcherName
    case LiteralStep(_) => "literal"
    case ExtractBodyStep(_) => "extract-http-body"
  }

  // ---------------------------------------------------------------------
  // Sizes, for the termination of nested execution

  function StepSize(s: Step): nat
  {
    match s
    case ParallelStep(lanes) => 1 + LanesSize(lanes)
    case SequenceStep(steps) => 1 + LaneSize(steps)
    case _ => 1
  }

  function LaneSize(steps: seq<Step>): (n: nat)
    ensures n >= 1
  {
    if |steps| == 0 then 1 else StepSize(steps[0]) + LaneSize(steps[1..])
  }

  function LanesSize(lanes: seq<ParallelLane>): nat
  {
    if |lanes| == 0 then 0 else LaneSize(lanes[0].steps) + LanesSize(lanes[1..])
  }

  /** Each step of a lane is smaller than the lane. */
  lemma {:induction false} StepSmallerThanLane(steps: seq<Step>, i: nat)
    requires i < |steps|
    ensures StepSize(steps[i]) < LaneSize(steps)
    decreases i
  {
    if i > 0 {
      StepSmallerThanLane(steps[1..], i - 1);
      assert steps[1..][i - 1] == steps[i];
    }
  }

  /** Each lane of a list of lanes is no larger than the list. */
  lemma {:induction false} LaneSmallerThanLanes(lanes: seq<ParallelLane>, k: nat)
    requires k < |lanes|
    ensures LaneSize(lanes[k].steps) <= LanesSize(lanes)
    decreases k
  {
    if k > 0 {
      LaneSmallerThanLanes(lanes[1..], k - 1);
      assert lanes[1..][k - 1] == lanes[k];
    }
  }

  // ---------------------------------------------------------------------
  // Constructors that check their arguments

  /** An argument of `transform` / `new TransformStep`: a function or any other value. */
  datatype TransformArg = TransformFnArg(fn: UserFn) | TransformValueArg(value: Value)

  /**
   * new TransformStep(arg1, arg2): `(fn)` with no second argument, or
   * `(field, fn)`; anything else throws.
   */
  function NewTransformStep(arg1: TransformArg, arg2: TransformArg): (r: Result<Step, Thrown>)
    ensures r.Ok? <==>
      (arg1.TransformFnArg? && arg2.TransformValueArg? && Js.IsNullish(arg2.value))
      || (arg1.TransformValueArg? && arg1.value.Str? && arg2.TransformFnArg?)
    ensures r.Ok? && arg1.TransformFnArg? ==> r.value == TransformStep(None, arg1.fn)
    ensures r.Ok? && arg1.TransformValueArg? ==> r.value == TransformStep(Some(arg1.value.s), arg2.fn)
    ensures r.Err? ==> FromThrown(r.error).message == "Invalid transform step configuration."
  {
    if arg1.TransformFnArg? && arg2.TransformValueArg? && Js.IsNullish(arg2.value) then
      Ok(TransformStep(None, arg1.fn))
    else if arg1.TransformValueArg? && arg1.value.Str? && arg2.TransformFnArg? then
      Ok(TransformStep(Some(arg1.value.s), arg2.fn))
    else Err(Throw(SimpleHodrError("Invalid transform step configuration.")))
  }

  /** `{ ...payload, [field]: value }`: a shallow copy with one field replaced. */
  function WithField(payload: Value, field: string, value: Value): (r: Value)
    ensures r.Obj? && field in r.fields && r.fields[field] == value
    ensures forall k :: k != field ==> (k in r.fields <==> k in Js.OwnProperties(payload))
    ensures forall k :: k != field && k in r.fields ==> r.fields[k] == Js.OwnProperties(payload)[k]
  {
    Obj(Js.OwnProperties(payload)[field := value])
  }

  /** The predicate argument of `expect`: a function or path-expression source text. */
  datatype PredicateArg = PredicateFnArg(fn: UserFn) | PredicateSourceArg(source: string)

  /** The error code of `expect`: an internal code name or an HTTP error status. */
  datatype ErrorCodeArg = InternalErrorCode(code: string) | HttpErrorStatus(status: int)

  /** `internalErrorCode`: a name is used as given, a status goes through the error table. */
  function InternalErrorCodeOf(errorCode: ErrorCodeArg): Value
  {
    match errorCode
    case InternalErrorCode(code) => Str(code)
    case HttpErrorStatus(status) => Http.CodeValue(HttpStatus.HttpErrorStatusToInternal(status))
  }

  /** `httpErrorCode`: a name goes through the error table, a status is used as given. */
  function HttpErrorCodeOf(errorCode: ErrorCodeArg): Value
  {
    match errorCode
    case InternalErrorCode(code) =>
      (match HttpStatus.ErrorStatusOfName(code)
       case Some(s) => Num(s)
       case None => Undefined)
    case HttpErrorStatus(status) => Num(status)
  }

  /**
   * new EnsureStep(root, predicate, errorCode, name): the name defaults to
   * 'expect'; a predicate given as text is parsed here, so a malformed one
   * throws at construction.
   */
  function NewEnsureStep(condition: PredicateArg, errorCode: ErrorCodeArg, name: Option<string>): (r: Result<Step, Thrown>)
    ensures r.Ok? <==> condition.PredicateFnArg? || ObjectPath.Parse(condition.source).Ok?
    ensures r.Ok? ==>
      && r.value.EnsureStep?
      && r.value.name == (if name.Some? && name.value != "" then name.value else "expect")
      && r.value.internalErrorCode == InternalErrorCodeOf(errorCode)
      && r.value.httpErrorCode == HttpErrorCodeOf(errorCode)
    ensures r.Ok? && condition.PredicateFnArg? ==> r.value.condition == PredicateFunction(condition.fn)
    ensures r.Ok? && condition.PredicateSourceArg? ==>
      r.value.condition == PredicateExpression(condition.source, ObjectPath.Parse(condition.source).value)
    ensures r.Err? ==> r.error == ObjectPath.ParseErrorThrown(ObjectPath.Parse(condition.source).error)
  {
    var stepName := if name.Some? && name.value != "" then name.value else "expect";
    match condition
    case PredicateFnArg(fn) =>
      Ok(EnsureStep(stepName, PredicateFunction(fn), InternalErrorCodeOf(errorCode), HttpErrorCodeOf(errorCode)))
    case PredicateSourceArg(source) =>
      match ObjectPath.Parse(source)
      case Ok(node) =>
        Ok(EnsureStep(stepName, PredicateExpression(source, node), InternalErrorCodeOf(errorCode), HttpErrorCodeOf(errorCode)))
      case Err(e) => Err(ObjectPath.ParseErrorThrown(e))
  }

  /** An internal error code given by name gets the HTTP status of that code. */
  lemma EnsureCodesFromName(c: HttpStatus.InternalCode)
    requires HttpStatus.IsErrorCode(c)
    ensures InternalErrorCodeOf(InternalErrorCode(HttpStatus.CodeName(c))) == Str(HttpStatus.CodeName(c))
    ensures HttpErrorCodeOf(InternalErrorCode(HttpStatus.CodeName(c))) == Num(HttpStatus.ErrorCodeToHttpStatus(c).value)
  {
    HttpStatus.ParseCodeName(c);
    HttpStatus.ErrorCodeRoundTrip(c);
  }

  /** An HTTP error status gets the internal code of that status, whose status is the one given. */
  lemma EnsureCodesFromStatus(status: int)
    requires HttpStatus.HttpErrorStatusToInternal(status).Some?
    ensures HttpErrorCodeOf(HttpErrorStatus(status)) == Num(status)
    ensures InternalErrorCodeOf(HttpErrorStatus(status)).Str?
    ensures HttpStatus.ErrorStatusOfName(InternalErrorCodeOf(HttpErrorStatus(status)).s) == Some(status)
  {
    var c := HttpStatus.HttpErrorStatusToInternal(status).value;
    HttpStatus.ParseCodeName(c);
    HttpStatus.ErrorStatusRoundTrip(status);
  }

  /** The error an EnsureStep throws when its predicate is falsy; an undefined code defaults. */
  function Expectation(internalErrorCode: Value, httpErrorCode: Value): (e: HodrError)
    ensures e.message == "Expectation failed!"
    ensures e.contextual == map["http" := Obj(map["statusCode" := httpErrorCode])]
    ensures internalErrorCode.Str? ==> e.code == internalErrorCode.s
    ensures !internalErrorCode.Str? ==> e.code == "internal-error"
  {
    NewHodrError(
      "Expectation failed!",
      Some(map["http" := Obj(map["statusCode" := httpErrorCode])]),
      if internalErrorCode.Str? then Some(internalErrorCode.s) else None,
      Undefined,
      Undefined)
  }

  /**
   * The error a ValidateStep re-throws: the normalised error with the code
   * 'bad-request', and the original code as the cause when there was none.
   */
  function BadRequest(t: Thrown): (r: Thrown)
    ensures var e := FromThrown(t);
      r.Raised? && r.err.code == "bad-request" && r.err.message == e.message
      && r.err.contextual == e.contextual && r.err.detail == e.detail
      && r.err.cause == (if Js.IsNullish(e.cause) then Str(e.code) else e.cause)
  {
    var e := FromThrown(t);
    Throw(NewHodrError(e.message, Some(e.contextual), Some("bad-request"), e.detail,
      if Js.IsNullish(e.cause) then Str(e.code) else e.cause))
  }

  /** The binding map of a path expression: `Object.assign({}, payload, atoms)`, so atoms win. */
  function Bindings(payload: Value, atoms: map<string, Value>): (b: map<string, Value>)
    ensures forall k :: k in atoms ==> k in b && b[k] == atoms[k]
    ensures forall k :: k !in atoms ==> (k in b <==> k in Js.OwnProperties(payload))
    ensures forall k :: k !in atoms && k in b ==> b[k] == Js.OwnProperties(payload)[k]
  {
    Js.OwnProperties(payload) + atoms
  }

  /** The entry of an `extract-comparisons` journal entry for one comparison. */
  function ComparisonEntry(r: ObjectPath.Report): Value
  {
    Obj(map["comparison" := ObjectPath.ReportDescription(r), "result" := Bool(r.result)])
  }

  /** The `extract-comparisons` journal entry listing the comparisons an extraction ran. */
  function ExtractComparisons(reports: seq<ObjectPath.Report>): (e: JournalEntry)
    ensures e.id == "extract-comparisons" && e.entry.Arr? && |e.entry.items| == |reports|
    ensures forall i :: 0 <= i < |reports| ==> e.entry.items[i] == ComparisonEntry(reports[i])
  {
    JournalEntry("extract-comparisons", "Extract Comparisons", None,
      Arr(seq(|reports|, i requires 0 <= i < |reports| => ComparisonEntry(reports[i]))), None)
  }

  /** The journal entry an EnsureStep with a path expression adds for one comparison. */
  function ComparisonJournalEntry(source: string, r: ObjectPath.Report): (e: JournalEntry)
    ensures e.id == source && e.title == "Expression Comparison: " + source
    ensures e.entry == ObjectPath.ReportValue(r)
  {
    JournalEntry(source, "Expression Comparison: " + source, None, ObjectPath.ReportValue(r), None)
  }

  /** The journal entries of one comparison report each, in the order they were sent. */
  function ComparisonJournalEntries(source: string, reports: seq<ObjectPath.Report>): (es: seq<JournalEntry>)
    ensures |es| == |reports|
    ensures forall i :: 0 <= i < |reports| ==> es[i] == ComparisonJournalEntry(source, reports[i])
  {
    seq(|reports|, i requires 0 <= i < |reports| => ComparisonJournalEntry(source, reports[i]))
  }

  /** The first registered validator that understands the validator object, if any. */
  function FirstValidator(validators: seq<Validator>, schema: Value): (r: Option<nat>)
    ensures r.Some? ==>
      && r.value < |validators|
      && validators[r.value].canValidate(schema)
      && forall j :: 0 <= j < r.value ==> !validators[j].canValidate(schema)
    ensures r.None? ==> forall j :: 0 <= j < |validators| ==> !validators[j].canValidate(schema)
    decreases |validators|
  {
    if |validators| == 0 then None
    else if validators[0].canValidate(schema) then Some(0)
    else
      match FirstValidator(validators[1..], schema)
      case Some(j) => Some(j + 1)
      case None => None
  }
}
