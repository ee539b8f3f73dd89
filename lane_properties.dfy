/**
 * What running a lane promises: the records the runner leaves behind, the
 * way the payload is threaded from step to step, where a failure stops the
 * lane, and what each kind of step computes.
 */
module LaneProperties {
  import opened Wrappers
  import opened Values
  import opened Types
  import Js
  import ObjectPath
  import Transform
  import Http
  import opened Steps
  import opened Context
  import opened LaneSemantics

  /** The context fields the runner never changes are those of c. */
  ghost predicate Untouched(c: Ctx, d: Ctx)
  {
    && d.origin == c.origin && d.state == c.state && d.lane == c.lane && d.initialStep == c.initialStep
    && d.finalizeStep == c.finalizeStep && d.inputTopic == c.inputTopic && d.atoms == c.atoms
  }

  /**
   * c's records untouched, then one record per step attempted: every step
   * unless one failed, and the last one current.
   */
  ghost predicate RecordsExtend(c: Ctx, d: Ctx, lane: seq<Step>, i: nat, error: Option<Thrown>)
    requires i <= |lane|
  {
    && |c.steps| <= |d.steps| <= |c.steps| + (|lane| - i)
    && d.steps[..|c.steps|] == c.steps
    && (error.None? ==> |d.steps| == |c.steps| + (|lane| - i))
    && (error.Some? ==> |d.steps| > |c.steps|)
    && d.currentStep == (if |d.steps| == |c.steps| then c.currentStep else LaneStep(|d.steps| - 1))
    && Untouched(c, d)
  }

  /**
   * The new records are lane records named after their steps, finalized,
   * except for the last one when the lane failed, which is marked as failed
   * and ends with the diagnostic entry.
   */
  ghost predicate RecordsNamed(c: Ctx, d: Ctx, lane: seq<Step>, i: nat, error: Option<Thrown>)
    requires i <= |lane| && |c.steps| <= |d.steps| <= |c.steps| + (|lane| - i)
  {
    && (forall k :: |c.steps| <= k < |d.steps| ==>
          d.steps[k].kind == LaneKind && d.steps[k].name == StepName(lane[i + (k - |c.steps|)]))
    && (forall k :: |c.steps| <= k < |d.steps| ==>
          d.steps[k].state == (if error.Some? && k == |d.steps| - 1 then Error else Finalized))
    && (error.Some? && |d.steps| > 0 ==>
          var journal := d.steps[|d.steps| - 1].metadata.journal;
          |journal| > 0 && journal[|journal| - 1] == Diagnostic(error.value))
  }

  /**
   * The payload flows through the new records: the first is fed c's
   * payload, each later one the previous one's output, and a completed lane
   * ends with the last output as payload.
   */
  ghost predicate RecordsChained(c: Ctx, d: Ctx, error: Option<Thrown>)
    requires |c.steps| <= |d.steps|
  {
    && (|d.steps| > |c.steps| ==> d.steps[|c.steps|].input == c.payload)
    && (forall k :: |c.steps| < k < |d.steps| ==> d.steps[k].input == d.steps[k - 1].output)
    && (error.None? ==> d.payload == if |d.steps| == |c.steps| then c.payload else d.steps[|d.steps| - 1].output)
  }

  /** The context d is what running lane[i..] on c leaves, with the failure error if any. */
  ghost predicate LaneRecords(c: Ctx, d: Ctx, lane: seq<Step>, i: nat, error: Option<Thrown>)
    requires i <= |lane|
  {
    && RecordsExtend(c, d, lane, i, error)
    && RecordsNamed(c, d, lane, i, error)
    && RecordsChained(c, d, error)
  }

  /** c3 is c after the runner finalized lane[i] with c3's payload as its output. */
  ghost predicate FinalizedNext(c: Ctx, c3: Ctx, lane: seq<Step>, i: nat)
    requires i < |lane|
  {
    && |c3.steps| == |c.steps| + 1 && c3.steps[..|c.steps|] == c.steps
    && c3.steps[|c.steps|].kind == LaneKind && c3.steps[|c.steps|].name == StepName(lane[i])
    && c3.steps[|c.steps|].state == Finalized
    && c3.steps[|c.steps|].input == c.payload && c3.steps[|c.steps|].output == c3.payload
    && Untouched(c, c3) && c3.currentStep == LaneStep(|c.steps|)
  }

  lemma ExtendCons(c: Ctx, c3: Ctx, d: Ctx, lane: seq<Step>, i: nat, error: Option<Thrown>)
    requires i < |lane| && FinalizedNext(c, c3, lane, i)
    requires RecordsExtend(c3, d, lane, i + 1, error)
    ensures RecordsExtend(c, d, lane, i, error)
    ensures d.steps[|c.steps|] == c3.steps[|c.steps|]
  {
    var n := |c.steps|;
    assert d.steps[..n] == d.steps[..n + 1][..n];
    assert d.steps[..n + 1][n] == c3.steps[n];
  }

  lemma NamedCons(c: Ctx, c3: Ctx, d: Ctx, lane: seq<Step>, i: nat, error: Option<Thrown>)
    requires i < |lane|
    requires |c3.steps| == |c.steps| + 1 <= |d.steps| <= |c.steps| + (|lane| - i)
    requires error.Some? ==> |d.steps| > |c3.steps|
    requires d.steps[|c.steps|].kind == LaneKind && d.steps[|c.steps|].name == StepName(lane[i])
    requires d.steps[|c.steps|].state == Finalized
    requires RecordsNamed(c3, d, lane, i + 1, error)
    ensures RecordsNamed(c, d, lane, i, error)
  {
    var n := |c.steps|;
    forall k | n <= k < |d.steps|
      ensures d.steps[k].kind == LaneKind && d.steps[k].name == StepName(lane[i + (k - n)])
    {
      if k > n {
        assert d.steps[k].name == StepName(lane[i + 1 + (k - (n + 1))]);
      }
    }
    forall k | n <= k < |d.steps|
      ensures d.steps[k].state == (if error.Some? && k == |d.steps| - 1 then Error else Finalized)
    {
      if k > n {
        assert n + 1 <= k < |d.steps|;
      }
    }
  }

  lemma ChainedCons(c: Ctx, c3: Ctx, d: Ctx, lane: seq<Step>, i: nat, error: Option<Thrown>)
    requires i < |lane| && FinalizedNext(c, c3, lane, i)
    requires RecordsExtend(c, d, lane, i, error) && d.steps[|c.steps|] == c3.steps[|c.steps|]
    requires RecordsExtend(c3, d, lane, i + 1, error) && RecordsChained(c3, d, error)
    ensures RecordsChained(c, d, error)
  {
  }

  /** A lane run from c that finalizes lane[i] and goes on from c3 leaves what LaneRecords describes. */
  lemma RecordsCons(c: Ctx, c3: Ctx, d: Ctx, lane: seq<Step>, i: nat, error: Option<Thrown>)
    requires i < |lane| && FinalizedNext(c, c3, lane, i)
    requires LaneRecords(c3, d, lane, i + 1, error)
    ensures LaneRecords(c, d, lane, i, error)
  {
    ExtendCons(c, c3, d, lane, i, error);
    assert d.steps[|c.steps|] == c3.steps[|c.steps|];
    NamedCons(c, c3, d, lane, i, error);
    ChainedCons(c, c3, d, lane, i, error);
  }

  /** A lane run from c whose step lane[i] fails in c2 leaves what LaneRecords describes. */
  lemma RecordsFail(env: Env, c: Ctx, c2: Ctx, lane: seq<Step>, i: nat, t: Thrown)
    requires i < |lane|
    requires Preserves(Begin(lane[i], c), c2)
    ensures LaneRecords(c, Fail(c2, t), lane, i, Some(t))
  {
    var c1 := Begin(lane[i], c);
    var n := |c.steps|;
    PreservesInStep(c1, c2);
    var c2e := c2.(steps := c2.steps[n := c2.steps[n].(state := Error)]);
    AddJournalsAppends(c2e, [Diagnostic(t)]);
    var d := Fail(c2, t);
    assert d.steps[..n] == c.steps by {
      assert forall j :: 0 <= j < n ==> d.steps[j] == c2e.steps[j] == c1.steps[j];
    }
    assert CurrentRecord(c2e) == c2e.steps[n];
    assert CurrentRecord(d) == d.steps[n];
  }

  /** The runner's records, payload and failure as LaneRecords describes them. */
  lemma {:induction false} RunStepsRecords(env: Env, lane: seq<Step>, c: Ctx, i: nat)
    requires i <= |lane|
    ensures LaneRecords(c, RunSteps(env, lane, c, i).0, lane, i, RunSteps(env, lane, c, i).1)
    decreases |lane| - i
  {
    if i < |lane| {
      var c1 := Begin(lane[i], c);
      var (c2, r) := StepSem(env, lane[i], c1);
      PreservesInStep(c1, c2);
      var n := |c.steps|;
      match r {
        case Ok(v) =>
          var c3 := Succeed(c2, v);
          assert c3.steps[..n] == c.steps by {
            assert forall j :: 0 <= j < n ==> c3.steps[j] == c2.steps[j] == c1.steps[j];
          }
          assert RunSteps(env, lane, c, i) == RunSteps(env, lane, c3, i + 1);
          RunStepsRecords(env, lane, c3, i + 1);
          RecordsCons(c, c3, RunSteps(env, lane, c3, i + 1).0, lane, i, RunSteps(env, lane, c3, i + 1).1);
        case Err(t) =>
          assert RunSteps(env, lane, c, i) == (Fail(c2, t), Some(t));
          RecordsFail(env, c, c2, lane, i, t);
      }
    }
  }

  /** What LaneRecords says of a whole lane that completed. */
  lemma CompletedRecords(c: Ctx, d: Ctx, lane: seq<Step>)
    requires LaneRecords(c, d, lane, 0, None)
    ensures |d.steps| == |c.steps| + |lane|
    ensures forall k :: |c.steps| <= k < |d.steps| ==> d.steps[k].state == Finalized
    ensures d.payload == (if |lane| == 0 then c.payload else d.steps[|d.steps| - 1].output)
  {
  }

  /** What LaneRecords says of a whole lane that failed. */
  lemma FailedRecords(c: Ctx, d: Ctx, lane: seq<Step>, error: Option<Thrown>)
    requires error.Some? && LaneRecords(c, d, lane, 0, error)
    ensures |c.steps| < |d.steps| <= |c.steps| + |lane|
    ensures d.steps[|d.steps| - 1].state == Error
    ensures d.steps[|d.steps| - 1].name == StepName(lane[|d.steps| - 1 - |c.steps|])
    ensures forall k :: |c.steps| <= k < |d.steps| - 1 ==> d.steps[k].state == Finalized
  {
    var last := |d.steps| - 1;
    assert d.steps[last].name == StepName(lane[0 + (last - |c.steps|)]);
  }

  /** A lane that completes, leaving d, has one finalized record per step, and its payload is the last step's output. */
  lemma LaneCompletes(env: Env, c: Ctx, d: Ctx)
    requires RunLane(env, c) == (d, None)
    ensures |d.steps| == |c.steps| + |c.lane|
    ensures forall k :: |c.steps| <= k < |d.steps| ==> d.steps[k].state == Finalized
    ensures d.payload == (if |c.lane| == 0 then c.payload else d.steps[|d.steps| - 1].output)
  {
    RunStepsRecords(env, c.lane, c, 0);
    CompletedRecords(c, d, c.lane);
  }

  /** A lane that fails, leaving d, stops at the failing step: no later step has a record. */
  lemma LaneStopsAtFailure(env: Env, c: Ctx, d: Ctx, error: Option<Thrown>)
    requires RunLane(env, c) == (d, error) && error.Some?
    ensures |c.steps| < |d.steps| <= |c.steps| + |c.lane|
    ensures d.steps[|d.steps| - 1].state == Error
    ensures d.steps[|d.steps| - 1].name == StepName(c.lane[|d.steps| - 1 - |c.steps|])
    ensures forall k :: |c.steps| <= k < |d.steps| - 1 ==> d.steps[k].state == Finalized
  {
    RunStepsRecords(env, c.lane, c, 0);
    FailedRecords(c, d, c.lane, error);
  }

  /**
   * A lane run only appends records: the earlier ones, the origin, the
   * initial and finalize steps, the input topic and the atoms stay as they were.
   */
  lemma LaneKeepsFrame(env: Env, c: Ctx, d: Ctx, error: Option<Thrown>)
    requires RunLane(env, c) == (d, error)
    ensures |c.steps| <= |d.steps| && d.steps[..|c.steps|] == c.steps
    ensures Untouched(c, d)
  {
    RunStepsRecords(env, c.lane, c, 0);
  }

  /** A lane without steps leaves the context as it is. */
  lemma EmptyLane(env: Env, c: Ctx)
    requires c.lane == []
    ensures RunLane(env, c).0 == c && RunLane(env, c).1 == None
  {
  }

  // ---------------------------------------------------------------------
  // Composite steps

  /** Each lane of a parallel step runs in a fork; the results are the forks' final payloads in lane order. */
  lemma {:induction false} LanesResults(env: Env, lanes: seq<ParallelLane>, c: Ctx, k: nat)
    requires k <= |lanes|
    ensures var (payloads, _) := LanesSem(env, lanes, c, k);
      forall j :: k <= j < |lanes| ==> payloads[j - k] == RunLane(env, ForkOf(c, lanes[j].steps)).0.payload
    decreases |lanes| - k
  {
    if k < |lanes| {
      LanesResults(env, lanes, c, k + 1);
    }
  }

  /** Whether lane k of a parallel step fails, run in a fork of c. */
  ghost predicate LaneFails(env: Env, lanes: seq<ParallelLane>, c: Ctx, k: nat)
    requires k < |lanes|
  {
    RunLane(env, ForkOf(c, lanes[k].steps)).1.Some?
  }

  /** One step of LanesSem: lane k's failure, else that of the later lanes. */
  lemma LanesErrorStep(env: Env, lanes: seq<ParallelLane>, c: Ctx, k: nat)
    requires k < |lanes|
    ensures LanesSem(env, lanes, c, k).1
      == if LaneFails(env, lanes, c, k) then RunLane(env, ForkOf(c, lanes[k].steps)).1 else LanesSem(env, lanes, c, k + 1).1
  {
  }

  /** A parallel step fails exactly when one of its lanes does. */
  lemma {:induction false} LanesFailOnlyIfSomeLaneFails(env: Env, lanes: seq<ParallelLane>, c: Ctx, k: nat)
    requires k <= |lanes|
    ensures LanesSem(env, lanes, c, k).1.None? <==> forall j :: k <= j < |lanes| ==> !LaneFails(env, lanes, c, j)
    decreases |lanes| - k
  {
    if k < |lanes| {
      LanesFailOnlyIfSomeLaneFails(env, lanes, c, k + 1);
      LanesErrorStep(env, lanes, c, k);
    }
  }

  /** The failure of a parallel step is that of its first failing lane. */
  lemma {:induction false} LanesFirstError(env: Env, lanes: seq<ParallelLane>, c: Ctx, k: nat, j: nat)
    requires k <= j < |lanes| && LaneFails(env, lanes, c, j)
    requires forall l :: k <= l < j ==> !LaneFails(env, lanes, c, l)
    ensures LanesSem(env, lanes, c, k).1 == RunLane(env, ForkOf(c, lanes[j].steps)).1
    decreases j - k
  {
    LanesErrorStep(env, lanes, c, k);
    if k < j {
      LanesFirstError(env, lanes, c, k + 1, j);
    }
  }

  /** A parallel step leaves its own context alone and yields the array of the lanes' payloads. */
  lemma ParallelStepResult(env: Env, lanes: seq<ParallelLane>, c: Ctx)
    requires InStep(c)
    ensures var (d, r) := StepSem(env, ParallelStep(lanes), c);
      && d == c
      && (r.Ok? ==> r.value.Arr? && |r.value.items| == |lanes|)
      && (r.Ok? ==> forall j :: 0 <= j < |lanes| ==> r.value.items[j] == RunLane(env, ForkOf(c, lanes[j].steps)).0.payload)
      && (r.Ok? <==> forall j :: 0 <= j < |lanes| ==> !LaneFails(env, lanes, c, j))
  {
    LanesResults(env, lanes, c, 0);
    LanesFailOnlyIfSomeLaneFails(env, lanes, c, 0);
  }

  /** A sequence of no steps yields null. */
  lemma SequenceEmpty(env: Env, c: Ctx)
    requires InStep(c)
    ensures StepSem(env, SequenceStep([]), c) == (c, Ok(Null))
  {
  }

  /** A sequence of one step is that step. */
  lemma SequenceOfOne(env: Env, s: Step, c: Ctx)
    requires InStep(c)
    ensures StepSem(env, SequenceStep([s]), c) == StepSem(env, s, c)
  {
    var (d, r) := StepSem(env, s, c);
    PreservesInStep(c, d);
    assert StepSem(env, SequenceStep([s]), c) == SequenceSem(env, [s], c, 0, Null);
    if r.Ok? {
      assert SequenceSem(env, [s], d, 1, r.value) == (d, r);
    }
  }

  /** A sequence runs its first step, then the rest in the context it left, with no payload threading. */
  lemma SequenceCons(env: Env, steps: seq<Step>, c: Ctx)
    requires InStep(c) && |steps| > 0
    ensures var (d, r) := StepSem(env, steps[0], c);
      && InStep(d)
      && (r.Err? ==> SequenceSem(env, steps, c, 0, Null) == (d, r))
      && (r.Ok? ==> SequenceSem(env, steps, c, 0, Null) == SequenceSem(env, steps, d, 1, r.value))
  {
    var (d, r) := StepSem(env, steps[0], c);
    PreservesInStep(c, d);
  }

  // ---------------------------------------------------------------------
  // Simple steps

  /** Calling a destination that is not registered fails with the configuration error and changes nothing. */
  lemma CallToMissingDestination(env: Env, destination: string, path: string, params: Option<Http.RequestParameters>, c: Ctx)
    requires InStep(c) && destination !in env.destinations
    ensures var (d, r) := StepSem(env, CallStep(destination, path, params), c);
      && d == c && r.Err? && r.error.Raised?
      && r.error.err.message == "Destination '" + destination + "' has not been configured."
  {
  }

  /** An expectation passes the payload on unchanged, or fails with the expectation error carrying its codes. */
  lemma EnsureOutcome(env: Env, name: string, condition: Predicate, internalErrorCode: Value, httpErrorCode: Value, c: Ctx)
    requires InStep(c)
    ensures var r := StepSem(env, EnsureStep(name, condition, internalErrorCode, httpErrorCode), c).1;
      var verdict := EnsureVerdict(condition, c).1;
      && (r.Ok? <==> verdict.Ok? && Js.Truthy(verdict.value))
      && (r.Ok? ==> r.value == c.payload)
      && (verdict.Ok? && !Js.Truthy(verdict.value) ==> r == Err(Throw(Expectation(internalErrorCode, httpErrorCode))))
    ensures StepSem(env, EnsureStep(name, condition, internalErrorCode, httpErrorCode), c).0.payload == c.payload
  {
    assert StepSem(env, EnsureStep(name, condition, internalErrorCode, httpErrorCode), c)
      == EnsureSem(condition, internalErrorCode, httpErrorCode, c);
    if condition.PredicateExpression? {
      var out := ObjectPath.Eval(condition.node, c.payload, Bindings(c.payload, c.atoms), true);
      AddJournalsAppends(c, ComparisonJournalEntries(condition.source, out.reports));
    } else {
      AddJournalsAppends(c, condition.fn(c.payload, View(c), c.atoms).journal);
    }
  }

  /**
   * A fork sees what its parent sees: path expressions in its lane read the
   * same bindings, and its user functions the same payload and metadata.
   */
  lemma ForkSeesParentBindings(c: Ctx, lane: seq<Step>)
    ensures Bindings(ForkOf(c, lane).payload, ForkOf(c, lane).atoms) == Bindings(c.payload, c.atoms)
    ensures View(ForkOf(c, lane)) == View(c)
    ensures !InStep(ForkOf(c, lane))
  {
  }

  /**
   * A transform with a field name merges the function's result into the
   * payload under that name; the entries the function journaled are on the
   * running record.
   */
  lemma TransformIntoField(env: Env, field: string, fn: UserFn, c: Ctx)
    requires InStep(c) && field != "" && fn(c.payload, View(c), c.atoms).result.Ok?
    ensures var (d, r) := StepSem(env, TransformStep(Some(field), fn), c);
      var out := fn(c.payload, View(c), c.atoms);
      && d == AddJournals(c, out.journal)
      && CurrentRecord(d).metadata.journal == CurrentRecord(c).metadata.journal + out.journal
      && d.payload == c.payload && d.metadata == c.metadata
      && r.Ok? && r.value.Obj?
      && field in r.value.fields && r.value.fields[field] == out.result.value
      && forall k :: k != field ==> (k in r.value.fields <==> k in Js.OwnProperties(c.payload))
  {
    AddJournalsAppends(c, fn(c.payload, View(c), c.atoms).journal);
  }

  /** A transform without a field name yields the function's result itself, with its journal entries. */
  lemma TransformWhole(env: Env, field: Option<string>, fn: UserFn, c: Ctx)
    requires InStep(c) && (field.None? || field == Some(""))
    ensures var out := fn(c.payload, View(c), c.atoms);
      StepSem(env, TransformStep(field, fn), c) == (AddJournals(c, out.journal), out.result)
  {
  }

  /**
   * Every failure of a validation is re-thrown as a bad request keeping the
   * original message; what the validator journaled stays either way.
   */
  lemma ValidateFailureIsBadRequest(env: Env, validator: ValidatorArg, targetPath: Option<string>, c: Ctx)
    requires InStep(c)
    ensures var (d, r) := ValidateSem(env, validator, targetPath, c);
      var (e, inner) := ValidatorResult(env, validator, targetPath, c);
      && d == e
      && (r.Err? <==> inner.Err?)
      && (r.Err? ==> r.error.Raised? && r.error.err.code == "bad-request")
      && (r.Err? ==> r.error.err.message == FromThrown(inner.error).message)
      && (r.Ok? ==> r == inner)
  {
  }

  /** A validator object no registered validator understands lets the payload through and changes nothing. */
  lemma ValidateWithoutValidator(env: Env, schema: Value, targetPath: Option<string>, c: Ctx)
    requires InStep(c)
    requires forall j :: 0 <= j < |env.validators| ==> !env.validators[j].canValidate(schema)
    ensures ValidateSem(env, ValidatorObject(schema), targetPath, c) == (c, Ok(c.payload))
  {
  }

  /**
   * The first validator that understands the validator object is the one
   * applied: it is handed the context, and the entries it journals stay on
   * the running record, in order, whether it passes or throws.
   */
  lemma ValidateUsesFirstMatch(env: Env, schema: Value, targetPath: Option<string>, c: Ctx, i: nat)
    requires InStep(c)
    requires i < |env.validators| && env.validators[i].canValidate(schema)
    requires forall j :: 0 <= j < i ==> !env.validators[j].canValidate(schema)
    ensures var out := env.validators[i].validate(View(c), schema, targetPath);
      && ValidatorResult(env, ValidatorObject(schema), targetPath, c) == (AddJournals(c, out.journal), out.result)
      && CurrentRecord(ValidateSem(env, ValidatorObject(schema), targetPath, c).0).metadata.journal
         == CurrentRecord(c).metadata.journal + out.journal
  {
    var f := FirstValidator(env.validators, schema);
    assert f.Some?;
    if f.value < i {
    } else if f.value > i {
    }
    AddJournalsAppends(c, env.validators[i].validate(View(c), schema, targetPath).journal);
  }

  /**
   * Remapping the status of a response object rewrites its numeric status
   * through the clauses and keeps every other field; the canonical status
   * is recorded exactly when the new status is a success.
   */
  lemma MapStatusCodeOfResponse(clauses: seq<Transform.StatusClause>, c: Ctx, status: int)
    requires InStep(c) && c.payload.Obj? && "statusCode" in c.payload.fields
    requires c.payload.fields["statusCode"] == Num(status)
    ensures var (d, r) := MapStatusCodeSem(clauses, c);
      var mapped := Transform.MapStatusCode(status, clauses);
      && r.Ok? && r.value.Obj? && r.value.fields == c.payload.fields["statusCode" := Num(mapped)]
      && d.payload == r.value
      && (200 <= mapped < 300 ==> "canonicalStatus" in d.metadata)
      && (200 <= mapped < 300 ==>
            d.metadata["canonicalStatus"] == Http.CanonicalRecord(Num(mapped), "http-status-remap", CurrentName(c)))
      && (!(200 <= mapped < 300) ==> d.metadata == c.metadata)
  {
    var mapped := Transform.MapStatusCode(status, clauses);
    assert RemappedStatus(Js.Get(c.payload, "statusCode"), clauses) == Num(mapped);
    Js.NumberComparisons(mapped, 200);
    Js.NumberComparisons(mapped, 300);
    var c1 := c.(payload := Obj(c.payload.fields["statusCode" := Num(mapped)]));
    assert CurrentName(c1) == CurrentName(c);
  }

  /** Remapping the status of null or undefined fails reading it, of another primitive fails writing it. */
  lemma MapStatusCodeOfNonObject(clauses: seq<Transform.StatusClause>, c: Ctx)
    requires InStep(c) && (c.payload.Undefined? || c.payload.Null? || c.payload.Bool? || c.payload.Num? || c.payload.NaN? || c.payload.Str?)
    ensures var (d, r) := MapStatusCodeSem(clauses, c);
      && d == c && r.Err? && r.error.NativeError? && r.error.name == "TypeError"
  {
  }

  /** The body of a response, unfiltered or followed along a dotted path. */
  lemma ExtractBodyOfResponse(body: Value, fields: map<string, Value>, path: Transform.PathRef)
    requires "body" in fields && fields["body"] == body
    ensures ExtractBodySem(None, Obj(fields)) == Ok(body)
    ensures ExtractBodySem(Some(path), Obj(fields)) == Ok(Transform.ExtractPath(body, Some(path)))
  {
  }
}
