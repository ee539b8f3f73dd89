/**
 * The lane runner of core/src/engine/execution.ts and the `execute` methods
 * of the steps of core/src/lane/step.ts and core/src/lane/builder.ts, on a
 * mutable execution context. Each method is proved to do what the
 * corresponding function of LaneSemantics says, and to leave every tracker
 * with what it had plus the contexts of the lanes it ran.
 */
module Execution {
  import opened Wrappers
  import opened Values
  import opened Types
  import Js
  import ObjectPath
  import ObjectPathEvaluator
  import Transform
  import Validate
  import Http
  import opened Steps
  import opened Context
  import Destinations
  import opened LaneSemantics

  /** What a running lane reaches through `root()` besides its trackers: destinations and validators. */
  datatype Root = Root(destinations: map<string, Destinations.HodrDestination>, validators: seq<Validator>)

  /** The adapters of the root's destinations, as the lane semantics sees them. */
  function EnvOf(root: Root): (env: Env)
    reads root.destinations.Values
    ensures env.destinations.Keys == root.destinations.Keys
    ensures forall d :: d in root.destinations ==> env.destinations[d] == root.destinations[d].adapter
    ensures env.validators == root.validators
  {
    Env(map d | d in root.destinations :: root.destinations[d].adapter, root.validators)
  }

  /** No context occurs twice in the list. */
  predicate DistinctContexts(cs: seq<HodrContext>)
  {
    forall i, j :: 0 <= i < j < |cs| ==> cs[i] != cs[j]
  }

  /** Two lists of distinct contexts that share none join into one. */
  lemma DistinctJoin(a: seq<HodrContext>, b: seq<HodrContext>)
    requires DistinctContexts(a) && DistinctContexts(b)
    requires forall i, j :: 0 <= i < |a| && 0 <= j < |b| ==> a[i] != b[j]
    ensures DistinctContexts(a + b)
  {
    var ab := a + b;
    forall i, j | 0 <= i < j < |ab|
      ensures ab[i] != ab[j]
    {
      if j < |a| {
        assert ab[i] == a[i] && ab[j] == a[j];
      } else if i < |a| {
        assert ab[i] == a[i] && ab[j] == b[j - |a|];
      } else {
        assert ab[i] == b[i - |a|] && ab[j] == b[j - |a|];
      }
    }
  }

  // ---------------------------------------------------------------------
  // The lane runner

  /**
   * executeLane(root, ctx): each step of the context's lane gets a record,
   * runs, and is finalized with its result as the new payload, or marked as
   * failed, which ends the lane with what was thrown. The ghost `env` is what
   * the lane sees of the root. `recorded` lists the contexts handed to
   * `root().record`: this one first, then those of the lanes its steps ran,
   * each a new context and each once.
   */
  method ExecuteLane(root: Root, env: Env, ctx: HodrContext) returns (error: Option<Thrown>, recorded: seq<HodrContext>)
    requires env == EnvOf(root)
    modifies ctx
    ensures (ctx.Model(), error) == RunLane(env, old(ctx.Model()))
    ensures |recorded| > 0 && recorded[0] == ctx
    ensures DistinctContexts(recorded)
    ensures forall i :: 1 <= i < |recorded| ==> fresh(recorded[i])
    decreases LaneSize(ctx.lane), 2
  {
    recorded := [ctx];
    ghost var goal := RunLane(env, ctx.Model());
    var lane := ctx.lane;
    var i := 0;
    error := None;
    while i < |lane| && error.None?
      invariant i <= |lane| && ctx.lane == lane
      invariant error.None? ==> RunSteps(env, lane, ctx.Model(), i) == goal
      invariant error.Some? ==> (ctx.Model(), error) == goal
      invariant |recorded| > 0 && recorded[0] == ctx
      invariant DistinctContexts(recorded)
      invariant forall i :: 1 <= i < |recorded| ==> fresh(recorded[i])
      decreases |lane| - i
    {
      StepSmallerThanLane(lane, i);
      var forks;
      error, forks := ExecuteStepOnce(root, env, lane[i], ctx);
      DistinctJoin(recorded, forks);
      recorded := recorded + forks;
      i := i + 1;
    }
  }

  /** The step's record is pushed and made current. */
  method BeginStep(s: Step, ctx: HodrContext)
    modifies ctx
    ensures ctx.Model() == Begin(s, old(ctx.Model()))
  {
    ctx.steps := ctx.steps + [PendingRecord(s, ctx.payload)];
    ctx.currentStep := LaneStep(|ctx.steps| - 1);
  }

  /** The running record is finalized with the step's result, or marked as failed with a diagnostic. */
  method SettleStep(r: Result<Value, Thrown>, ctx: HodrContext) returns (error: Option<Thrown>)
    requires InStep(ctx.Model())
    modifies ctx
    ensures (ctx.Model(), error) == Settle(old(ctx.Model()), r)
  {
    var k := ctx.currentStep.index;
    match r {
      case Ok(v) =>
        ctx.steps := ctx.steps[k := ctx.steps[k].(state := Finalized, output := v)];
        ctx.payload := v;
        error := None;
      case Err(t) =>
        ctx.steps := ctx.steps[k := ctx.steps[k].(state := Error)];
        var _ := ctx.AddJournalEntry(Diagnostic(t));
        error := Some(t);
    }
  }

  /**
   * One turn of the runner's loop: the step's record is pushed and made
   * current, the step runs, its record is settled. `forks` lists the
   * contexts of the lanes the step ran.
   */
  method ExecuteStepOnce(root: Root, env: Env, s: Step, ctx: HodrContext) returns (error: Option<Thrown>, forks: seq<HodrContext>)
    requires env == EnvOf(root)
    modifies ctx
    ensures (ctx.Model(), error) == StepOnce(env, s, old(ctx.Model()))
    ensures ctx.lane == old(ctx.lane)
    ensures DistinctContexts(forks)
    ensures forall i :: 0 <= i < |forks| ==> fresh(forks[i])
    decreases StepSize(s), 2
  {
    BeginStep(s, ctx);
    ghost var begun := ctx.Model();
    var r;
    r, forks := ExecuteStep(root, env, s, ctx);
    PreservesInStep(begun, ctx.Model());
    error := SettleStep(r, ctx);
  }

  /** step.execute(ctx), for the step the context's current record belongs to. */
  method ExecuteStep(root: Root, env: Env, s: Step, ctx: HodrContext) returns (r: Result<Value, Thrown>, forks: seq<HodrContext>)
    requires env == EnvOf(root) && InStep(ctx.Model())
    modifies ctx
    ensures (ctx.Model(), r) == StepSem(env, s, old(ctx.Model()))
    ensures DistinctContexts(forks)
    ensures forall i :: 0 <= i < |forks| ==> fresh(forks[i])
    decreases StepSize(s), 1
  {
    forks := [];
    match s {
      case CallStep(destination, path, params) =>
        if destination !in root.destinations {
          r := Err(DestinationMissing(destination));
        } else {
          r := root.destinations[destination].Invoke(ctx, path, params);
        }
      case ExtractStep(directive) => r := ExecuteExtract(directive, ctx);
      case TransformStep(field, fn) => r := ExecuteTransform(field, fn, ctx);
      case EnsureStep(_, condition, internalErrorCode, httpErrorCode) =>
        r := ExecuteEnsure(condition, internalErrorCode, httpErrorCode, ctx);
      case ValidateStep(validator, targetPath) => r := ExecuteValidate(root.validators, validator, targetPath, ctx);
      case ParallelStep(lanes) => r, forks := ExecuteParallel(root, env, lanes, ctx);
      case UndefinedParallelStep => r := Err(LanesUndefined);
      case SequenceStep(steps) => r, forks := ExecuteSequence(root, env, steps, ctx);
      case MapStatusCodeStep(clauses) => r := ExecuteMapStatusCode(clauses, ctx);
      case StatusMatcherStep(patterns) => r := Validate.MatcherOutcome(ctx.payload, patterns);
      case LiteralStep(value) => r := Ok(value);
      case ExtractBodyStep(bodyPath) => r := ExtractBodySem(bodyPath, ctx.payload);
    }
  }

  /**
   * ParallelStep.execute(ctx): each lane runs, one after the other, in a
   * fresh fork of the context; the forks' final payloads are collected in
   * lane order, and the first lane's failure is the step's.
   */
  method ExecuteParallel(root: Root, env: Env, lanes: seq<ParallelLane>, ctx: HodrContext)
    returns (r: Result<Value, Thrown>, forks: seq<HodrContext>)
    requires env == EnvOf(root) && InStep(ctx.Model())
    ensures r == ParallelResult(LanesSem(env, lanes, ctx.Model(), 0))
    ensures |forks| >= |lanes|
    ensures DistinctContexts(forks)
    ensures forall i :: 0 <= i < |forks| ==> fresh(forks[i])
    decreases StepSize(ParallelStep(lanes)), 0
  {
    ghost var c := ctx.Model();
    ghost var all := LanesSem(env, lanes, c, 0);
    var payloads: seq<Value> := [];
    var error: Option<Thrown> := None;
    forks := [];
    var k := 0;
    while k < |lanes|
      invariant k <= |lanes| && |forks| >= k && ctx.Model() == c
      invariant DistinctContexts(forks)
      invariant forall i :: 0 <= i < |forks| ==> fresh(forks[i])
      invariant all.0 == payloads + LanesSem(env, lanes, c, k).0
      invariant all.1 == if error.Some? then error else LanesSem(env, lanes, c, k).1
      decreases |lanes| - k
    {
      LaneSmallerThanLanes(lanes, k);
      var fork := ctx.Fork(lanes[k].steps);
      var e, recorded := ExecuteLane(root, env, fork);
      LanesSemUnfold(env, lanes, c, k, fork.Model(), e);
      DistinctJoin(forks, recorded);
      forks := forks + recorded;
      payloads := payloads + [fork.payload];
      if error.None? {
        error := e;
      }
      k := k + 1;
    }
    assert LanesSem(env, lanes, c, k).0 == [];
    assert all.0 == payloads;
    r := if error.Some? then Err(error.value) else Ok(Arr(payloads));
  }

  /**
   * SequenceStep.execute(ctx): the nested steps run in order in the same
   * context, each seeing the same payload; the last result is the step's,
   * null for none, and the first failure ends it.
   */
  method ExecuteSequence(root: Root, env: Env, steps: seq<Step>, ctx: HodrContext)
    returns (r: Result<Value, Thrown>, forks: seq<HodrContext>)
    requires env == EnvOf(root) && InStep(ctx.Model())
    modifies ctx
    ensures (ctx.Model(), r) == SequenceSem(env, steps, old(ctx.Model()), 0, Null)
    ensures DistinctContexts(forks)
    ensures forall i :: 0 <= i < |forks| ==> fresh(forks[i])
    decreases StepSize(SequenceStep(steps)), 0
  {
    ghost var goal := SequenceSem(env, steps, ctx.Model(), 0, Null);
    var result := Null;
    var j := 0;
    r := Ok(Null);
    forks := [];
    while j < |steps| && r.Ok?
      invariant j <= |steps| && InStep(ctx.Model())
      invariant r.Ok? ==> SequenceSem(env, steps, ctx.Model(), j, result) == goal
      invariant r.Err? ==> (ctx.Model(), r) == goal
      invariant DistinctContexts(forks)
      invariant forall i :: 0 <= i < |forks| ==> fresh(forks[i])
      decreases |steps| - j, if r.Ok? then 1 else 0
    {
      StepSmallerThanLane(steps, j);
      ghost var here := ctx.Model();
      var out, more := ExecuteStep(root, env, steps[j], ctx);
      DistinctJoin(forks, more);
      forks := forks + more;
      PreservesInStep(here, ctx.Model());
      if out.Err? {
        r := out;
      } else {
        result := out.value;
        j := j + 1;
      }
    }
    if r.Ok? {
      r := Ok(result);
    }
  }

  // ---------------------------------------------------------------------
  // The simple steps

  /** ExtractStep.execute(ctx): the comparisons the extraction ran are journaled as one entry. */
  method ExecuteExtract(directive: Transform.Directive, ctx: HodrContext) returns (r: Result<Value, Thrown>)
    requires InStep(ctx.Model())
    modifies ctx
    ensures (ctx.Model(), r) == ExtractSem(directive, old(ctx.Model()))
  {
    var extracted := Transform.ExtractMap(ctx.payload, directive, Bindings(ctx.payload, ctx.atoms), true);
    match extracted {
      case Err(e) => r := Err(ObjectPath.ParseErrorThrown(e));
      case Ok(out) =>
        if |out.reports| > 0 {
          var _ := ctx.AddJournalEntry(ExtractComparisons(out.reports));
        }
        r := Ok(out.value);
    }
  }

  /** The entries a step adds on the running record, journaled one by one, in order. */
  method JournalEach(entries: seq<JournalEntry>, ctx: HodrContext)
    requires InStep(ctx.Model())
    modifies ctx
    ensures ctx.Model() == AddJournals(old(ctx.Model()), entries)
  {
    var i := 0;
    while i < |entries|
      invariant i <= |entries| && InStep(ctx.Model())
      invariant AddJournals(ctx.Model(), entries[i..]) == AddJournals(old(ctx.Model()), entries)
      decreases |entries| - i
    {
      assert entries[i..][1..] == entries[i + 1..];
      ghost var here := ctx.Model();
      var _ := ctx.AddJournalEntry(entries[i]);
      PreservesAddJournal(here, entries[i]);
      i := i + 1;
    }
  }

  /** A user function's outcome carried out on the context: its entries are journaled, its result returned. */
  method ApplyOutcome(out: UserOutcome, ctx: HodrContext) returns (r: Result<Value, Thrown>)
    requires InStep(ctx.Model())
    modifies ctx
    ensures (ctx.Model(), r) == Apply(old(ctx.Model()), out)
  {
    JournalEach(out.journal, ctx);
    r := out.result;
  }

  /** TransformStep.execute(ctx): the function is handed the context, and may journal on it. */
  method ExecuteTransform(field: Option<string>, fn: UserFn, ctx: HodrContext) returns (r: Result<Value, Thrown>)
    requires InStep(ctx.Model())
    modifies ctx
    ensures (ctx.Model(), r) == TransformSem(field, fn, old(ctx.Model()))
  {
    var payload := ctx.payload;
    var out := fn(payload, View(ctx.Model()), ctx.atoms);
    r := ApplyOutcome(out, ctx);
    if r.Ok? && field.Some? && field.value != "" {
      r := Ok(WithField(payload, field.value, r.value));
    }
  }

  /** The predicate of an expectation applied to the payload; a path expression reports every comparison it runs. */
  method ExecuteVerdict(condition: Predicate, ctx: HodrContext) returns (verdict: Result<Value, Thrown>)
    requires InStep(ctx.Model())
    modifies ctx
    ensures (ctx.Model(), verdict) == EnsureVerdict(condition, old(ctx.Model()))
  {
    match condition {
      case PredicateFunction(fn) =>
        var out := fn(ctx.payload, View(ctx.Model()), ctx.atoms);
        verdict := ApplyOutcome(out, ctx);
      case PredicateExpression(source, node) =>
        var value, reports := ObjectPathEvaluator.Evaluate(node, ctx.payload, Bindings(ctx.payload, ctx.atoms), true);
        JournalEach(ComparisonJournalEntries(source, reports), ctx);
        verdict := Ok(value);
    }
  }

  /**
   * EnsureStep.execute(ctx): a path expression is evaluated with a reporter
   * that journals every comparison as it happens.
   */
  method ExecuteEnsure(condition: Predicate, internalErrorCode: Value, httpErrorCode: Value, ctx: HodrContext)
    returns (r: Result<Value, Thrown>)
    requires InStep(ctx.Model())
    modifies ctx
    ensures (ctx.Model(), r) == EnsureSem(condition, internalErrorCode, httpErrorCode, old(ctx.Model()))
  {
    ghost var c := ctx.Model();
    var payload := ctx.payload;
    var verdict := ExecuteVerdict(condition, ctx);
    ghost var d := ctx.Model();
    assert (d, verdict) == EnsureVerdict(condition, c);
    if verdict.Err? {
      r := Err(verdict.error);
    } else if Js.Truthy(verdict.value) {
      r := Ok(payload);
    } else {
      r := Err(Throw(Expectation(internalErrorCode, httpErrorCode)));
    }
  }

  /**
   * ValidateStep.execute(ctx): a validator function is applied to the
   * payload; a validator object goes to the first registered validator that
   * understands it, which is handed the context, the payload passing through
   * when none does; failures become bad requests.
   */
  method ExecuteValidate(validators: seq<Validator>, validator: ValidatorArg, targetPath: Option<string>, ctx: HodrContext)
    returns (r: Result<Value, Thrown>)
    requires InStep(ctx.Model())
    modifies ctx
    ensures (ctx.Model(), r) == ValidateSem(Env(map[], validators), validator, targetPath, old(ctx.Model()))
  {
    ghost var c := ctx.Model();
    match validator {
      case ValidatorFunction(fn) =>
        r := fn(ctx.payload);
      case ValidatorObject(schema) =>
        var i := 0;
        var found := false;
        while i < |validators| && !found
          invariant i <= |validators| && ctx.Model() == c
          invariant forall j :: 0 <= j < i && (j < i - 1 || !found) ==> !validators[j].canValidate(schema)
          invariant found ==> 0 < i && validators[i - 1].canValidate(schema)
          decreases |validators| - i
        {
          found := validators[i].canValidate(schema);
          i := i + 1;
        }
        if found {
          assert FirstValidator(validators, schema) == Some(i - 1);
          var out := validators[i - 1].validate(View(ctx.Model()), schema, targetPath);
          r := ApplyOutcome(out, ctx);
        } else {
          assert FirstValidator(validators, schema) == None;
          r := Ok(ctx.payload);
        }
    }
    if r.Err? {
      r := Err(BadRequest(r.error));
    }
  }

  /** MapStatusCodeStep.execute(ctx): the payload's status is rewritten in place. */
  method ExecuteMapStatusCode(clauses: seq<Transform.StatusClause>, ctx: HodrContext) returns (r: Result<Value, Thrown>)
    requires InStep(ctx.Model())
    modifies ctx
    ensures (ctx.Model(), r) == MapStatusCodeSem(clauses, old(ctx.Model()))
  {
    if Js.IsNullish(ctx.payload) {
      return Err(Http.PropertyOfNullish(ctx.payload, "statusCode"));
    }
    var mapped := RemappedStatus(Js.Get(ctx.payload, "statusCode"), clauses);
    if ctx.payload.Obj? {
      ctx.payload := Obj(ctx.payload.fields["statusCode" := mapped]);
    } else if !ctx.payload.Arr? && !ctx.payload.ErrorVal? {
      return Err(PropertyOfPrimitive(ctx.payload, "statusCode"));
    }
    if Http.IsSuccessStatus(mapped) {
      ctx.metadata := ctx.metadata["canonicalStatus" := Http.CanonicalRecord(mapped, "http-status-remap", CurrentName(ctx.Model()))];
    }
    r := Ok(ctx.payload);
  }
}
