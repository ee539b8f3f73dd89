# hodr engine, modelled in Dafny

hodr is a small integration engine. An *origin* (a function module or an
HTTP router) hands each request to a *lane*, which is a list of steps. The
steps extract and transform the payload, validate it, call *destinations*
(an HTTP client or the file system), check and remap HTTP statuses, and run
sub-lanes in sequence or in parallel. Every run goes into an *execution
context*. The context keeps the payload, a record of every step with its
journal, and the final canonical status. *Trackers* register each context
they are handed.

This project models that core and proves properties of the model:

- `Wrappers`, `Values`, `Js`: JavaScript values (undefined, null, booleans,
  integer numbers, NaN, strings, arrays, objects, hodr errors) and the
  parts of JavaScript semantics the engine relies on: truthiness, `typeof`,
  property access, `String()`, `Number()`, loose and strict equality, and
  relational comparison.
- `Types`: hodr errors and their normaliser `fromThrown`, step records and
  their states, journal entries, and the execution-context snapshot `Ctx`.
  core/src/engine/types.ts holds only the `HodrError` constructor; the
  normaliser follows the ladder of the Koa adapter's error path
  (plugins/koa-plugin/src/index.ts:92-99).
- `ObjectPath`, `ObjectPathParser`, `ObjectPathEvaluator`,
  `ObjectPathProperties`, `ObjectPathExamples`: the object-path expression
  language of core/src/engine/object-path.ts.
  - `ObjectPath` holds the tokenizer and a functional specification of the
    parser and the evaluator. The reporter of comparisons is a list of
    reports.
  - `ObjectPathParser` is the recursive-descent `Parser` class, proved
    equal to that specification.
  - `ObjectPathEvaluator` holds the evaluator's methods.
  - `ObjectPathProperties` holds the lemmas.
  - `ObjectPathExamples` holds the expressions of the source's tests.
- `Transform`: `extractPath`, `mapStatusCode` and `extractMap`.
- `Validate`: the HTTP status matchers.
- `HttpStatus`, `Http`:
  - the status tables of core/src/destination/http.ts and their round trips;
  - request shaping (`resolveParams`, `prepareBody`, `joinUriParts`);
  - the canonical-status resolution.
- `FakeHttpClient`: the test kit's fake HTTP client.
- `Destinations`: the destination that forwards to its adapter, the
  file-system adapter and the HTTP adapter.
- `Steps`: the step kinds of core/src/lane/step.ts.
- `Context`: the `HodrContext` class, whose methods are proved against
  functions on the snapshot.
- `LaneSemantics`, `LaneProperties`, `Execution`:
  - `LaneSemantics` gives the meaning of running one step and a whole lane
    (`executeLane`) as functions of the context.
  - `LaneProperties` holds the lemmas about them.
  - `Execution` holds the imperative runner, which is proved equal to them.
- `Builder`: the lane builder, which appends steps to a shared lane, and
  the destination builders.
- `Tracker`: the memory tracker and the memory recorder.
- `Origin`: function modules and `FunctionInput.invoke`.
- `Route`, `Router`: HTTP routes with `handleRequest`, and the router that
  collects them.
- `Registry`: the `Hodr` object, which keeps the origins, destinations,
  trackers and validators.
- `TestRouteAdapter`: the test kit's route adapter, and whole requests
  through it.

Imperative code remains imperative:

- The contexts, lanes, builders, destinations, routes, routers, trackers
  and the registry are classes.
- Their methods state their new state in terms of the old one.
- The lane runner and the parser are loops and recursive methods, each
  proved against a specification function.

Some things the source leaves unfinished are modelled as the source has them:

- The file-system adapter ignores the path it is called with.
- The tracker and recorder limit is stored and never applied.
- `parallel()` passes its steps where `ParallelStep` expects the root. The
  step it registers has no lanes, and running it throws the TypeError for
  reading `map` of undefined (core/src/lane/builder.ts:127-130,
  core/src/lane/step.ts:241-253).

core/src/engine/transform.ts holds only `extractPath`, although
core/src/lane/step.ts:19 imports `mapStatusCode` from it. The source of `mapStatusCode` and `extractMap` is not part of this model. Both
are modelled from their call sites (core/src/lane/step.ts:73-101 and
274-294) and their tests (core/test/engine/transform-mapStatusCode.test.ts,
core/test/engine/transform-extract.test.ts). An exact status clause takes
precedence over a range. A range includes both of its ends.

The source's work with clocks, promises and the host's router library
becomes parameters of the model:

- A route request adapter is a record of functions.
- A user step function or registered validator is a Dafny function value. It
  is handed the payload and a view of the context (payload and metadata),
  and gives back its result, which may be a throw, and the journal entries
  it adds on the running record.
- An HTTP client other than the fake one is a function from request to
  response.
- The URI templating library is a function passed to the HTTP adapter.
- What a step sees of the registry is an environment: the destinations'
  adapters and the registered validators.

## Model

| member | source | states |
|---|---|---|
| Js.NatToString | core/src/engine/object-path.ts:129-130 | `String(n)` of a natural number is a canonical numeral whose digits read back as `n` |
| Js.NatToStringOfDigits | core/src/engine/object-path.ts:129-130 | printing the number a canonical numeral spells gives that numeral back (round trip) |
| Js.IntKeyIff | core/src/engine/object-path.ts:340 | a property key names the integer `n` exactly when it is `String(n)`, as array indexing reads it |
| Js.ToNumber | core/src/engine/object-path.ts:127-128 | `Number(v)` is always a number or NaN |
| Js.IndexedProperties | core/src/engine/object-path.ts:340 | an array's index properties "0" .. "n-1" hold its elements and nothing else |
| Js.NumberComparisons | core/src/engine/object-path.ts:147-154 | on numbers `<`, `>`, `<=` and `>=` are the integer relations |
| Js.NaNComparisons | core/src/engine/object-path.ts:147-154 | a NaN operand makes every relational operator false |
| Types.HodrErrorDefaults | core/src/engine/types.ts:68-75 | an omitted contextual argument is `{}` and an omitted code is `internal-error`; detail and cause stay undefined |
| Types.HodrErrorStoresArguments | core/src/engine/types.ts:68-78 | every argument given is stored as given; the error keeps its message and is named `HodrError` |
| Types.FromThrownIdempotent | plugins/koa-plugin/src/index.ts:92-99 | normalising an already normalised error, raised or thrown as a value, changes nothing |
| Types.Diagnostic | core/src/engine/execution.ts:33-55 | the journal entry of a failing step is the `error` entry titled `Error`, with a type hint exactly when an Error instance was thrown |
| Types.DiagnosticShapes | core/src/engine/execution.ts:33-49 | an Error with a stack gives a `stacktrace` entry, one without its message as `string`, any other value `String(e)` with an empty description |
| ObjectPath.TokenLength | core/src/engine/object-path.ts:271 | the match at the front of a string never runs past it; 0 when no alternative of the token expression matches there |
| ObjectPath.Tokenize | core/src/engine/object-path.ts:269-274 | every token emitted is non-empty; with the lemmas below, it is the sequence of all non-overlapping matches |
| ObjectPath.ParseExpr | core/src/engine/object-path.ts:173-189 | a successful parse consumes at least one token and yields a property path or a comparison whose left side is a property path |
| ObjectPath.PathLoop | core/src/engine/object-path.ts:191-213 | the `while (true)` loop of parsePath: a success consumes tokens and adds at least one segment to those already pushed |
| ObjectPath.ParseSegment | core/src/engine/object-path.ts:195-206 | one identifier, with its bracketed filter when `[` follows, consumes at least one token |
| ObjectPath.ParseValue | core/src/engine/object-path.ts:215-231 | parseValue always consumes the token it reads, even past the end |
| ObjectPath.ContextPathLoop | core/src/engine/object-path.ts:233-261 | the keys already collected stay a prefix of the reference path, and the type hint is the one the prefix selected |
| ObjectPathParser.Parser.constructor | core/src/engine/object-path.ts:161-163 | the parser starts at token 0 of the tokenized expression |
| ObjectPathParser.Parser.Peek | core/src/engine/object-path.ts:165-167 | returns the token at the cursor, undefined past the end, and leaves the cursor |
| ObjectPathParser.Parser.Next | core/src/engine/object-path.ts:169-171 | returns the token at the cursor and advances the cursor by one |
| ObjectPathParser.Parser.ParseExpression | core/src/engine/object-path.ts:173-189 | the result and the new cursor are those of the grammar function ParseExpr |
| ObjectPathParser.Parser.ParsePath | core/src/engine/object-path.ts:191-213 | the loop of parsePath yields what PathLoop yields from no segments, error included |
| ObjectPathParser.Parser.ParseSegment | core/src/engine/object-path.ts:195-206 | an identifier must match `[a-zA-Z_][a-zA-Z0-9_]*` ("Invalid identifier") and a filter must close with `]` ("Expected ]"), as ParseSegment says |
| ObjectPathParser.Parser.ParseValue | core/src/engine/object-path.ts:215-231 | a reference path, an integer literal, a quoted literal without quotes or a bare reference, with the cursor where ParseValue leaves it |
| ObjectPathParser.Parser.ParseContextPath | core/src/engine/object-path.ts:233-261 | the hint from the `#`, `!` or `$` prefix and every `.`-separated key, as ContextPathLoop says |
| ObjectPathParser.Parse | core/src/engine/object-path.ts:161-264 | parse(expression) equals the functional grammar Parse; tokens left over are ignored |
| ObjectPathEvaluator.Evaluate | core/src/engine/object-path.ts:279-333 | the compiled closure returns the value and sends the reports of the evaluation function Eval |
| ObjectPathEvaluator.ResolvePath | core/src/engine/object-path.ts:291-299 | the loop over a context path stops at null or undefined and applies the type hint, as Eval says |
| ObjectPathEvaluator.EvaluatePath | core/src/engine/object-path.ts:301-310 | the loop over the segment functions returns undefined at the first null or undefined value, as EvalSegments says |
| ObjectPathEvaluator.PathAdvance | core/src/engine/object-path.ts:305-308 | one turn of the segment loop preserves its invariant, including the early return |
| ObjectPathEvaluator.EvaluateSegment | core/src/engine/object-path.ts:338-353 | `input?.[name]`, or `find` on the array there, as EvalSegment says |
| ObjectPathEvaluator.FindFirst | core/src/engine/object-path.ts:348 | the search returns the first element whose filter value is truthy, with the reports of each test it ran |
| ObjectPathEvaluator.FindAdvance | core/src/engine/object-path.ts:348 | one turn of the search preserves its invariant |
| ObjectPathEvaluator.ParseAndEvaluate | core/src/engine/object-path.ts:359-361 | parseAndCompile fails with the parse error, or evaluates the parsed tree |
| ObjectPathProperties.TokenizeFront | core/src/engine/object-path.ts:269-274 | a token matched in full at the front is emitted, and tokenizing continues after it |
| ObjectPathProperties.TokenizeIdentifier | core/src/engine/object-path.ts:271 | an identifier not followed by an identifier character is a single token |
| ObjectPathProperties.TokenizeHintedIdentifier | core/src/engine/object-path.ts:271 | a `#`, `!` or `$` prefix belongs to the identifier's token |
| ObjectPathProperties.TokenizeDigits | core/src/engine/object-path.ts:271 | a maximal run of digits is a single token |
| ObjectPathProperties.TokenizeOperator | core/src/engine/object-path.ts:271 | `=`, `!=`, `>`, `<`, `>=` and `<=` are each a single token |
| ObjectPathProperties.TokenizePunctuation | core/src/engine/object-path.ts:271 | `[`, `]` and `.` are tokens of their own |
| ObjectPathProperties.TokenizeSkips | core/src/engine/object-path.ts:269-274 | a character that cannot begin a token is dropped |
| ObjectPathProperties.SpacesAreIgnored | core/src/engine/object-path.ts:269-274 | a space changes no tokenization |
| ObjectPathProperties.TokenizeQuoted | core/src/engine/object-path.ts:271 | a quoted string without quotes or backslashes inside is one token, quotes included |
| ObjectPathProperties.UnterminatedQuoteIsIgnored | core/src/engine/object-path.ts:271 | an unterminated quote is dropped and what follows is tokenized as usual |
| ObjectPathProperties.TokenizeLexeme | core/src/engine/object-path.ts:271 | any lexeme not extended by the text after it is one token |
| ObjectPathProperties.TokenizeConcat | core/src/engine/object-path.ts:269-274 | tokenizing the concatenation of delimited lexemes gives back the lexemes (round trip) |
| ObjectPathProperties.RejectsNonIdentifier | core/src/engine/object-path.ts:195-197 | a path segment that is not a plain identifier, type-prefixed ones included, fails with "Invalid identifier" |
| ObjectPathProperties.RejectsEmpty | core/src/engine/object-path.ts:195-197 | an expression without tokens fails at its first identifier |
| ObjectPathProperties.RejectsUnclosedFilter | core/src/engine/object-path.ts:199-202 | a filter not followed by `]` fails with "Expected ]" |
| ObjectPathProperties.RejectsTrailingDot | core/src/engine/object-path.ts:208-210 | a `.` with nothing after it fails for want of an identifier |
| ObjectPathProperties.MissingOperandReadsUndefined | core/src/engine/object-path.ts:176-179 | an operator with nothing after it compares with the binding named "undefined" |
| ObjectPathProperties.OperandIgnoresInput | core/src/engine/object-path.ts:215-231 | the right-hand side of a comparison is a literal or a binding reference and never reads the input |
| ObjectPathProperties.FindIsFirstMatch | core/src/engine/object-path.ts:343-349 | a filtered segment yields the first element that passes the filter, and undefined when none passes |
| ObjectPathProperties.PropertyPathIsChain | core/src/engine/object-path.ts:301-310 | a dotted path reads the properties in turn and yields undefined once a value on the way is null or undefined |
| ObjectPathProperties.ReporterNeutral | core/src/engine/object-path.ts:111-120 | supplying a reporter never changes the value, and without one nothing is reported |
| ObjectPathProperties.SegmentsReporterNeutral | core/src/engine/object-path.ts:303-309 | the same for a sequence of segments |
| ObjectPathProperties.SegmentReporterNeutral | core/src/engine/object-path.ts:338-353 | the same for one segment |
| ObjectPathProperties.FindReporterNeutral | core/src/engine/object-path.ts:345-349 | the same for the filter's search |
| ObjectPathProperties.ComparisonReportsOnce | core/src/engine/object-path.ts:312-328 | a comparison yields a boolean and sends exactly one `compare` record with its operands, operator and result |
| ObjectPathProperties.FilterReportsEachTest | core/src/engine/object-path.ts:345-349 | a comparison filter reports once for each element it tests before the search stops |
| ObjectPathProperties.FindReporterOnce | core/src/engine/object-path.ts:345-349 | the counting step of the same induction on a non-empty array |
| ObjectPathProperties.NumberHintReadsDigits | core/src/engine/object-path.ts:125-128 | `#` reads a digit string as the integer it spells |
| ObjectPathProperties.NumberHintRejectsWords | core/src/engine/object-path.ts:125-128 | `#` reads a word as NaN |
| ObjectPathProperties.BooleanHintIsBoolean | core/src/engine/object-path.ts:131-132 | `!` always yields a boolean; "false" and the falsy values give false, "true" and "0" give true |
| ObjectPathProperties.StringHintOfNumber | core/src/engine/object-path.ts:129-130 | `$` turns a number into its decimal numeral, which reads back as the same number |
| ObjectPathProperties.NumericComparison | core/src/engine/object-path.ts:141-156 | on numbers each operator is the integer relation |
| ObjectPathProperties.NaNOperand | core/src/engine/object-path.ts:141-156 | NaN on either side makes every comparison false except `!=` |
| ObjectPathProperties.EqualityIsStrict | core/src/engine/object-path.ts:143-146 | `=` is strict equality: a number is never equal to its numeral |
| ObjectPathExamples.TokensOfBodyComments | core/test/engine/object-path.test.ts:6 | "body.comments" tokenizes to body, `.`, comments |
| ObjectPathExamples.ParsesBodyComments | core/test/engine/object-path.test.ts:6 | "body.comments" parses to a two-property path |
| ObjectPathExamples.SelectsBodyComments | core/test/engine/object-path.test.ts:5-24 | dot notation reaches the nested array and reports nothing |
| ObjectPathExamples.TokensOfLengthCheck | core/test/engine/object-path.test.ts:27 | "comments.length>0" tokenizes to five tokens |
| ObjectPathExamples.ParsesLengthCheck | core/test/engine/object-path.test.ts:27 | "comments.length>0" parses to a `>` comparison of a path with the literal 0 |
| ObjectPathExamples.LengthCheckHoldsForNonEmpty | core/test/engine/object-path.test.ts:26-49 | `comments.length>0` holds exactly when the array is non-empty |
| ObjectPathExamples.TokensOfById | core/test/engine/object-path.test.ts:52 | "comments[id=commentId]" tokenizes to six tokens |
| ObjectPathExamples.TokensOfByHintedId | core/test/engine/object-path.test.ts:68 | "comments[id=#commentId]" keeps `#commentId` as one token |
| ObjectPathExamples.ParsesById | core/test/engine/object-path.test.ts:52 | the filter parses to a comparison of `id` with an unhinted binding reference |
| ObjectPathExamples.ParsesByHintedId | core/test/engine/object-path.test.ts:68 | the `#` prefix becomes a number hint on the reference |
| ObjectPathExamples.FilterTest | core/test/engine/object-path.test.ts:51-89 | each comment passes the filter exactly when its id equals the coerced binding |
| ObjectPathExamples.SelectsById | core/test/engine/object-path.test.ts:51-89 | selecting by id finds the comment with that id, and undefined when none has it |
| ObjectPathExamples.SearchTwo | core/src/engine/object-path.ts:348 | `find` over two elements takes the first that passes |
| ObjectPathExamples.SelectsByNumberAsTested | core/test/engine/object-path.test.ts:62-64 | the test's numeric bindings 655, 523 and 123 |
| ObjectPathExamples.SelectsByNumeral | core/test/engine/object-path.test.ts:80-88 | a numeral bound to the name is read as a number through `#` |
| Context.NewContext | core/src/context/context.ts:16-44 | a new context is running, has no step records and takes origin, lane, payload, current and finalize step from its parameters |
| Context.WithEntry | core/src/context/context.ts:47 | a record with one more entry at the end of its journal and nothing else changed |
| Context.AddJournal | core/src/context/context.ts:46-49 | the entry goes to the end of the current record's journal; every other record, the current pointer and all other fields are unchanged |
| Context.AddJournals | core/src/context/context.ts:46-49 | appending several entries keeps the context with a current record |
| Context.FinalizeRecord | core/src/context/context.ts:51-63 | the finalize record has the given name, input and status, no output, and the journal from the parameters or an empty one |
| Context.BeginFinalization | core/src/context/context.ts:51-66 | the finalize record is installed and becomes the current step; nothing else changes |
| Context.Promoted | core/src/context/context.ts:69-71 | `pending` is promoted to `finalized`; `finalized` and `error` are kept |
| Context.Terminated | core/src/context/context.ts:68-76 | the context takes the promoted finalize state, the current step becomes null, and nothing else changes |
| Context.ForkOf | core/src/context/types.ts:134-136 | a fork starts from the parent's payload, atoms, metadata and origin, is running and has its own empty step list |
| Context.TerminatedStateIsFinal | core/src/context/context.ts:68-76 | a terminated context has ended `finalized` or `error`, `error` exactly when the finalize step was `error`, and has the same step list |
| Context.TerminateIdempotent | core/src/context/context.ts:68-76 | terminating twice is the same as terminating once |
| Context.JournalAfterFinalization | core/src/context/context.ts:46-66 | after finalization has begun, journal entries go to the finalize record only |
| Context.AddJournalsAppends | core/src/context/context.ts:46-49 | several entries are appended in order to the current journal, and no other record changes |
| Context.HodrContext.constructor | core/src/context/context.ts:34-44 | the new object's state is NewContext of the parameters |
| Context.HodrContext.AddJournalEntry | core/src/context/context.ts:46-49 | the state becomes AddJournal of the old state, and the context itself is returned |
| Context.HodrContext.BeginFinalizationStep | core/src/context/context.ts:51-66 | the state becomes BeginFinalization of the old state, and the finalize record is returned |
| Context.HodrContext.Terminate | core/src/context/context.ts:68-76 | the state becomes Terminated of the old state; a finalize step must exist |
| Context.HodrContext.Fork | core/src/context/types.ts:134-136 | a fresh context whose state is ForkOf the parent's |
| Steps.NewTransformStep | core/src/lane/step.ts:109-118 | succeeds exactly for `(fn)` or `(string, fn)`, storing the field in the second case, and otherwise throws "Invalid transform step configuration." |
| Steps.WithField | core/src/lane/step.ts:121-125 | a shallow copy of the payload's own properties with only the given field replaced |
| Steps.NewEnsureStep | core/src/lane/step.ts:139-173 | the name defaults to `expect`; a text predicate is parsed at construction, so construction fails exactly when the text does not parse; both codes come from the error code given |
| Steps.EnsureCodesFromName | core/src/lane/step.ts:164-172 | an internal error code given by name keeps that name and gets its HTTP status from `errorCodeToHttpStatus` |
| Steps.EnsureCodesFromStatus | core/src/lane/step.ts:164-172 | an HTTP error status is kept and mapped through `httpErrorStatusToInternal` to a code whose status is that status |
| Steps.Expectation | core/src/lane/step.ts:177-183 | the error of a falsy predicate is "Expectation failed!" with the internal code (default `internal-error`) and `http.statusCode` |
| Steps.BadRequest | core/src/lane/step.ts:223-230 | a validation failure is re-raised with code `bad-request`, keeping message, contextual data and detail, with the old code as cause when there was none |
| Steps.Bindings | core/src/lane/step.ts:84 | `Object.assign({}, payload, atoms)`: every atom, and the payload's own properties the atoms do not name |
| Steps.ExtractComparisons | core/src/lane/step.ts:89-96 | the `extract-comparisons` entry lists one comparison per report, in order |
| Steps.ComparisonJournalEntry | core/src/lane/step.ts:151-157 | one comparison of a text predicate is journaled under the predicate text with the report as entry |
| Steps.ComparisonJournalEntries | core/src/lane/step.ts:149-158 | one journal entry per report, in the order sent |
| Steps.FirstValidator | core/src/lane/step.ts:205-209 | the index of the first validator whose `canValidate` holds, and none exactly when no validator can validate |
| LaneSemantics.CallSem | core/src/lane/step.ts:42-50 | a call goes to the named destination's `invoke`; the step changes only payload, metadata and its own journal |
| LaneSemantics.AdapterInvokePreserves | core/src/lane/destination.ts:14-18 | a destination's adapter changes nothing of the context but the metadata and the running record's journal |
| LaneSemantics.ExtractSem | core/src/lane/step.ts:78-100 | an extraction changes only what a step may change: it journals its comparisons on the running record |
| LaneSemantics.EnsureVerdict | core/src/lane/step.ts:147-176 | a predicate function is handed the context, and the entries it journals go on the running record; a path expression journals each comparison there; nothing else changes |
| LaneSemantics.EnsureSem | core/src/lane/step.ts:175-186 | an expectation changes only the running record's journal, by what its predicate journaled |
| LaneSemantics.Apply | core/src/lane/step.ts:124 | a user function's outcome puts its journal entries on the running record and keeps the step frame |
| LaneSemantics.TransformSem | core/src/lane/step.ts:120-129 | the function is handed the payload, the context and the atoms; only its journal entries change the context |
| LaneSemantics.ValidatorResult | core/src/lane/step.ts:199-210 | a validator function sees only the payload; a registered validator is handed the context and journals on the running record |
| LaneSemantics.ValidateSem | core/src/lane/step.ts:199-231 | validation changes only the running record's journal, also when it fails |
| LaneSemantics.MapStatusCodeSem | core/src/lane/step.ts:279-293 | remapping the status changes only the payload, the metadata and nothing of the step records |
| LaneSemantics.StepSem | core/src/lane/step.ts:31-294 | every step's `execute` changes only the payload, the metadata and the running record's journal, whatever its user functions journal |
| LaneSemantics.ParallelResult | core/src/lane/step.ts:246-255 | a parallel step fails exactly when a lane failed |
| LaneSemantics.LanesSem | core/src/lane/step.ts:247-253 | one result per lane from the k-th on |
| LaneSemantics.LanesSemUnfold | core/src/lane/step.ts:247-253 | the lane at k contributes its fork's final payload first, and its failure if it failed |
| LaneSemantics.SequenceSem | core/src/lane/step.ts:264-270 | the nested steps change only what a step may change |
| LaneSemantics.PendingRecord | core/src/engine/execution.ts:12-19 | the record of a step about to run is a pending lane record named after the step, with the current payload as input and an empty journal |
| LaneSemantics.Begin | core/src/engine/execution.ts:21-22 | the pending record is appended and becomes the current step |
| LaneSemantics.Settle | core/src/engine/execution.ts:24-57 | the lane goes on after a success and stops with what was thrown after a failure |
| LaneProperties.RecordsCons | core/src/engine/execution.ts:11-29 | a finalized step followed by the rest of the lane leaves the records LaneRecords describes |
| LaneProperties.RecordsFail | core/src/engine/execution.ts:30-57 | a failing step leaves its record marked `error` as the last one |
| LaneProperties.RunStepsRecords | core/src/engine/execution.ts:11-58 | the runner's records, payload and failure are those LaneRecords describes: one record per step tried, in lane order, each input the previous output |
| LaneProperties.CompletedRecords | core/src/engine/execution.ts:11-29 | a completed lane adds exactly one finalized record per step, and the payload is the last output |
| LaneProperties.FailedRecords | core/src/engine/execution.ts:30-57 | a failed lane's last record is `error` and belongs to the failing step; all before it are finalized |
| LaneProperties.LaneCompletes | core/src/engine/execution.ts:11-29 | the step list grows by exactly the lane length, every new record is finalized, and the payload is the last step's output |
| LaneProperties.LaneStopsAtFailure | core/src/engine/execution.ts:30-57 | a failing lane ends at the failing step: no later step gets a record |
| LaneProperties.LaneKeepsFrame | core/src/engine/execution.ts:11-58 | a lane only appends records; earlier records, origin, initial and finalize step, input topic and atoms are kept |
| LaneProperties.EmptyLane | core/src/engine/execution.ts:11 | a lane without steps leaves the context as it is |
| LaneProperties.LanesResults | core/src/lane/step.ts:246-255 | each lane runs in its own fork and the results are the forks' final payloads in lane order |
| LaneProperties.ForkSeesParentBindings | core/src/lane/step.ts:249 | a fork's expressions read the parent's bindings and its user functions the parent's payload and metadata; it starts with no current step |
| LaneProperties.LanesErrorStep | core/src/lane/step.ts:247-253 | the failure at lane k is that lane's, else the later lanes' |
| LaneProperties.LanesFailOnlyIfSomeLaneFails | core/src/lane/step.ts:247-253 | the parallel step fails exactly when one of its lanes fails |
| LaneProperties.LanesFirstError | core/src/lane/step.ts:247-253 | its failure is that of the first failing lane |
| LaneProperties.ParallelStepResult | core/src/lane/step.ts:246-255 | a parallel step leaves its own context alone and, exactly when no lane fails, yields one payload per lane in configured order |
| LaneProperties.SequenceEmpty | core/src/lane/step.ts:264-270 | a sequence without nested steps yields null |
| LaneProperties.SequenceOfOne | core/src/lane/step.ts:264-270 | a sequence of one step is that step |
| LaneProperties.SequenceCons | core/src/lane/step.ts:264-270 | a sequence runs its first step, stops on its failure, and otherwise goes on in the context it left, keeping its result |
| LaneProperties.CallToMissingDestination | core/src/lane/step.ts:42-47 | a call to an unregistered destination fails with "Destination '<name>' has not been configured." and changes nothing |
| LaneProperties.EnsureOutcome | core/src/lane/step.ts:175-186 | an expectation passes exactly when its verdict is truthy, returning the payload unchanged; a falsy verdict throws the expectation error with its codes |
| LaneProperties.TransformIntoField | core/src/lane/step.ts:120-125 | a transform with a field returns a copy of the payload with only that field set to the function's result; the function's journal entries are appended to the running record and nothing else changes |
| LaneProperties.TransformWhole | core/src/lane/step.ts:120-129 | a transform without a field returns the function's result itself, with its journal entries on the running record |
| LaneProperties.ValidateFailureIsBadRequest | core/src/lane/step.ts:211-231 | a validation fails exactly when the validator does, always with code `bad-request` and the original message; what the validator journaled stays |
| LaneProperties.ValidateWithoutValidator | core/src/lane/step.ts:205-210 | a validator object no registered validator understands lets the payload through and changes nothing |
| LaneProperties.ValidateUsesFirstMatch | core/src/lane/step.ts:205-209 | the first validator whose `canValidate` holds is the one applied; it is handed the context, and its journal entries stay on the running record in order, whether it passes or throws |
| LaneProperties.MapStatusCodeOfResponse | core/src/lane/step.ts:279-293 | the status is rewritten in place through the clauses; a canonical status (`http-status-remap`) is recorded exactly when the new status is in [200, 300) |
| LaneProperties.MapStatusCodeOfNonObject | core/src/lane/step.ts:280-281 | remapping the status of a primitive throws a TypeError and changes nothing |
| LaneProperties.ExtractBodyOfResponse | core/src/lane/builder.ts:218-222 | a response body is taken whole, or followed along a path with `extractPath` |
| Execution.EnvOf | core/src/lane/step.ts:43 | the lane sees the adapter of each registered destination, and the validators |
| Execution.ExecuteLane | core/src/engine/execution.ts:5-59 | the new context and the failure are those of RunLane on the old one; the contexts handed to the root's trackers are this one first, then only new contexts, none twice |
| Execution.BeginStep | core/src/engine/execution.ts:12-22 | the state becomes Begin of the old state |
| Execution.SettleStep | core/src/engine/execution.ts:26-57 | the state and the failure become Settle of the old state: finalized with the result as payload, or `error` with the diagnostic entry |
| Execution.ExecuteStepOnce | core/src/engine/execution.ts:12-57 | one turn of the loop acts as StepOnce, and the lane stays the same; the forked contexts it reports are new and distinct |
| Execution.ExecuteStep | core/src/lane/step.ts:31-294 | `step.execute(ctx)` acts as StepSem; the forked contexts it reports are new and distinct |
| Execution.ExecuteParallel | core/src/lane/step.ts:246-255 | the result is ParallelResult of the lanes run in forks, one fork at least per lane; every reported context is new and none occurs twice |
| Execution.ExecuteSequence | core/src/lane/step.ts:264-270 | the loop over the nested steps acts as SequenceSem; the forked contexts it reports are new and distinct |
| Execution.ExecuteExtract | core/src/lane/step.ts:78-100 | acts as ExtractSem |
| Execution.ExecuteTransform | core/src/lane/step.ts:120-129 | acts as TransformSem: the function is handed the context, and its entries are journaled |
| Execution.JournalEach | core/src/lane/step.ts:150-158 | the entries are journaled one by one, in order, on the running record |
| Execution.ApplyOutcome | core/src/lane/step.ts:124 | acts as Apply: the function's entries are journaled and its result returned |
| Execution.ExecuteVerdict | core/src/lane/step.ts:147-176 | acts as EnsureVerdict |
| Execution.ExecuteEnsure | core/src/lane/step.ts:175-186 | acts as EnsureSem |
| Execution.ExecuteValidate | core/src/lane/step.ts:199-231 | the loop over the validators acts as ValidateSem, the chosen validator journaling on the context |
| Execution.ExecuteMapStatusCode | core/src/lane/step.ts:279-293 | acts as MapStatusCodeSem |
| Builder.Lane.constructor | core/src/lane/types.ts:1-47 | a lane holds the steps it is given |
| Builder.ValidateStepOf | core/src/lane/builder.ts:76-87 | throws "Invalid validator step configuration." exactly when the second argument is truthy and the first is not a string; with no second argument the first is the validator and there is no target path; otherwise the second is the validator and a string first argument its path |
| Builder.ValidateWithPath | core/src/lane/builder.ts:82-84 | with a path and a truthy validator, that validator is registered with that target path |
| Builder.ValidateRefusesNonPath | core/src/lane/builder.ts:77-79 | a truthy second argument after a non-string first one is refused with the configuration error |
| Builder.IsValue | core/src/lane/builder.ts:102 | the `expectValue` predicate is true exactly when the value is neither null nor undefined, and journals nothing |
| Builder.ExpectValueStep | core/src/lane/builder.ts:98-108 | an expectation named `expect-value` on IsValue with the codes of the given error code |
| Builder.ExpectValueOutcome | core/src/lane/builder.ts:98-108 | an `expectValue` step passes a non-nullish payload on unchanged and fails a nullish one with the expectation error |
| Builder.LiteralIgnoresPayload | core/src/lane/builder.ts:110-118 | a `literal` step yields its constant whatever the context holds, changes nothing, and is named `literal` |
| Builder.VerbCall | core/src/lane/builder.ts:132-142 | the call step carries the caller's parameters with the verb as their `method`, and `{ method }` alone when none were given |
| Builder.VerbCallSendsVerb | core/src/lane/builder.ts:138-140 | a request built for a verb call carries that verb whatever method the caller's parameters named |
| Builder.HttpOkAcceptsOnly200 | core/src/lane/builder.ts:194-197 | `expectHttpOk` accepts exactly status 200 and then passes the response on unchanged |
| Builder.HttpSuccessAcceptsRange | core/src/lane/builder.ts:199-202 | `expectHttpSuccess` accepts a numeric status exactly when it is in 200..220, both ends included |
| Builder.ResponseBodyExtracted | core/src/lane/builder.ts:209-217 | the `extract-http-body` step yields `extractPath(payload.body, path)` and changes nothing |
| Builder.LaneBuilder.constructor | core/src/lane/builder.ts:50-54 | a builder over the given lane |
| Builder.LaneBuilder.Push | core/src/lane/builder.ts:58 | one step appended at the end of the shared lane, earlier steps untouched |
| Builder.LaneBuilder.Extract | core/src/lane/builder.ts:57-60 | appends one extract step and returns a new builder over the same lane |
| Builder.LaneBuilder.Transform | core/src/lane/builder.ts:65-71 | appends the transform step, or throws the constructor's error and appends nothing; the new builder shares the lane |
| Builder.LaneBuilder.Validate | core/src/lane/builder.ts:76-87 | appends the validate step and returns the builder itself, or throws and appends nothing |
| Builder.LaneBuilder.Expect | core/src/lane/builder.ts:90-96 | appends the expectation, or throws the parse error of a malformed predicate text and appends nothing |
| Builder.LaneBuilder.ExpectValue | core/src/lane/builder.ts:98-108 | appends ExpectValueStep and returns the builder itself |
| Builder.LaneBuilder.Literal | core/src/lane/builder.ts:110-118 | appends a literal step and returns the builder itself |
| Builder.LaneBuilder.Sequence | core/src/lane/builder.ts:121-124 | appends a sequence of the given steps |
| Builder.LaneBuilder.Parallel | core/src/lane/builder.ts:127-130 | appends a parallel step built as the source builds it: the steps go to the root argument, so the step has no lanes |
| Builder.LaneBuilder.HttpStep | core/src/lane/builder.ts:132-142 | appends VerbCall and returns a new response builder over the same lane |
| Builder.LaneBuilder.HttpGet | core/src/lane/builder.ts:144-150 | appends a GET call |
| Builder.LaneBuilder.HttpPost | core/src/lane/builder.ts:152-158 | appends a POST call |
| Builder.LaneBuilder.HttpPut | core/src/lane/builder.ts:160-166 | appends a PUT call |
| Builder.LaneBuilder.HttpPatch | core/src/lane/builder.ts:168-174 | appends a PATCH call |
| Builder.LaneBuilder.HttpDelete | core/src/lane/builder.ts:176-182 | appends a DELETE call |
| Builder.LaneBuilder.InvokeDestination | core/src/lane/builder.ts:185-188 | appends a call step without parameters |
| Builder.LaneBuilder.ExpectHttpOk | core/src/lane/builder.ts:194-197 | appends the status matcher for 200 |
| Builder.LaneBuilder.ExpectHttpSuccess | core/src/lane/builder.ts:199-202 | appends the status matcher for 200..220 |
| Builder.LaneBuilder.ExpectHttpStatus | core/src/lane/builder.ts:204-207 | appends the status matcher for the given patterns |
| Builder.LaneBuilder.ExtractResponseBody | core/src/lane/builder.ts:209-217 | appends the body extraction and returns a new builder over the lane |
| Builder.LaneBuilder.MapStatusCode | core/src/lane/builder.ts:219-222 | appends the status remapping step |
| Builder.ClientAsConfig | core/src/lane/builder.ts:252-256 | a client read as a configuration has no adapter provider and no endpoint |
| Builder.UsingAsWrittenThrows | core/src/lane/builder.ts:251-257 | as written, `using` hands the client to the adapter constructor as its configuration, which then throws for every provider |
| Builder.UsingAdapter | core/src/lane/builder.ts:251-257 | as intended, the adapter's client is the one the provider makes from the configuration, with the configured endpoint |
| Builder.UsingAdapterIsConfigured | core/src/destination/http.ts:245-262 | the intended adapter is the one the adapter constructor builds from a configuration naming that provider |
| Builder.HttpClientStub.constructor | core/src/lane/builder.ts:244-249 | the stub keeps the destination and the configuration |
| Builder.HttpClientStub.Using | core/src/lane/builder.ts:251-257 | the destination gets the intended HTTP adapter |
| Builder.DestinationBuilder.constructor | core/src/lane/builder.ts:225-229 | a builder for one destination |
| Builder.DestinationBuilder.HttpClient | core/src/lane/builder.ts:231-237 | returns a fresh stub remembering the configuration; nothing else changes |
| Builder.DestinationBuilder.FileSystem | core/src/lane/builder.ts:239-241 | the destination's adapter becomes the file-system adapter for the root |
| HttpStatus.StatusKeyOfNumber | core/src/destination/http.ts:19-63 | a numeric status indexes the table entry of that status |
| HttpStatus.ParseCodeName | core/src/destination/http.ts:78-99 | every internal code is read back from its name, so no two codes share a name |
| HttpStatus.ParseCodeNameInformational | core/src/destination/http.ts:79-82 | the same for the informational codes |
| HttpStatus.ParseCodeNameSuccess | core/src/destination/http.ts:83-92 | the same for the success codes |
| HttpStatus.ParseCodeNameClientErrorA | core/src/destination/http.ts:23-32 | the same for the codes of 400 to 409 |
| HttpStatus.ParseCodeNameClientErrorB | core/src/destination/http.ts:33-42 | the same for the codes of 410 to 421 |
| HttpStatus.ParseCodeNameClientErrorC | core/src/destination/http.ts:43-51 | the same for the codes of 422 to 451 |
| HttpStatus.ParseCodeNameServerErrorA | core/src/destination/http.ts:52-57 | the same for the codes of 500 to 505 |
| HttpStatus.ParseCodeNameServerErrorB | core/src/destination/http.ts:58-62 | the same for the codes of 506 to 511 |
| HttpStatus.ErrorStatusRoundTrip | core/src/destination/http.ts:101-143 | every HTTP error status maps to an error code that `errorCodeToHttpStatus` maps back to that status |
| HttpStatus.ErrorStatusRange | core/src/destination/http.ts:19-63 | the error table holds only 4xx and 5xx statuses |
| HttpStatus.ErrorCodeRoundTrip | core/src/destination/http.ts:101-143 | `errorCodeToHttpStatus` is defined exactly on the error codes, and each status maps back to its code |
| HttpStatus.InternalStatusRoundTrip | core/src/destination/http.ts:159-171 | `internalStatusToHttpStatus` inverts `httpStatusToInternal` on every status it covers |
| HttpStatus.InternalCodeRoundTrip | core/src/destination/http.ts:159-171 | every internal code has an HTTP status that `httpStatusToInternal` maps back to it |
| HttpStatus.SuccessCodeRoundTrip | core/src/destination/http.ts:145-157 | `successCodeToHttpStatus` covers exactly the success codes, with 2xx statuses that map back to the same code |
| Http.RequestValue | core/src/destination/http.ts:288-292 | the request a client receives carries its method, URI and body |
| Http.CanonicalStatusFallback | core/src/destination/http.ts:173-185 | with no canonical status recorded the fallback is returned |
| Http.CanonicalStatusRecorded | core/src/destination/http.ts:178-182 | a recorded `httpStatus` is returned |
| Http.CanonicalStatusFromCode | core/src/destination/http.ts:178-182 | without an `httpStatus` the status of the recorded internal code is looked up |
| Http.CanonicalRecordResolves | core/src/destination/http.ts:173-185 | once a status is recorded, resolving returns exactly that status whatever the fallback |
| Http.CanonicalRecordCode | core/src/destination/http.ts:305-310 | a recorded 2xx status carries the success code of that status, which maps back to it |
| Http.IsHttpRequest | core/src/destination/http.ts:190-198 | reading the method of null or undefined throws; a request has a method from the nine HTTP methods and a string URI |
| Http.ResolveParams | core/src/destination/http.ts:200-212 | the result holds the atoms and the path parameters, the parameters winning on a key clash |
| Http.ResolveParamsFromPath | core/src/destination/http.ts:206-207 | a string `pathParams` is a path into the payload whose object supplies the parameters |
| Http.ResolveParamsAsTested | core/test/destination/http.test.ts:6-19 | the test's `threadId` object supplies `targetType` and `targetId` |
| Http.PrepareBody | core/src/destination/http.ts:214-220 | a string `params.body` selects that path of the payload; otherwise the whole payload is the body |
| Http.BodyFor | core/src/destination/http.ts:291 | only POST, PUT and PATCH send the body; every other method sends null |
| Http.StripLeadingSlashes | core/src/destination/http.ts:226 | the part with all its leading slashes removed and nothing else |
| Http.StripTrailingSlashes | core/src/destination/http.ts:226 | the part with all its trailing slashes removed and nothing else |
| Http.NonEmptyParts | core/src/destination/http.ts:224 | the empty parts are dropped |
| Http.NonEmptyPartsMembers | core/src/destination/http.ts:224 | filtering keeps every non-empty part and only those |
| Http.TrimmedParts | core/src/destination/http.ts:225-227 | the first part loses its trailing slashes, every later part its leading ones |
| Http.JoinUriPartsEmptyEndpoint | core/src/destination/http.ts:222-229 | an empty endpoint leaves the path without its trailing slashes |
| Http.JoinUriPartsEndpointAndPath | core/src/destination/http.ts:222-229 | endpoint and path meet at exactly one slash |
| Http.JoinUriPartsEmptyPath | core/src/destination/http.ts:222-229 | an endpoint without a path loses only its trailing slashes |
| Destinations.NewHttpAdapter | core/src/destination/http.ts:247-259 | construction fails with the missing-client error exactly when no client provider is configured; otherwise the client is what the provider makes of the configuration (its endpoint, in the model) and the endpoint defaults to '' |
| Destinations.NoAdapterAnswersUndefined | core/src/lane/destination.ts:14-18 | a destination with no adapter answers undefined and leaves the context as it was |
| Destinations.FileSystemInvokeEffect | core/src/destination/fs.ts:26-33 | the answer is the root and the payload joined by '/'; only `payloadTypeHint` changes, to 'static-content'; the path and parameters make no difference |
| Destinations.FileSystemPathOfString | core/src/destination/fs.ts:29-32 | a string payload is a file under the root; no payload gives the root with a trailing '/' |
| Destinations.BuildRequestShape | core/src/destination/http.ts:262-293 | a built request uses the method of the parameters (GET by default) and the endpoint joined with the filled-in path; it has a body only for POST, PUT and PATCH; the filled-in path is journaled on the current step |
| Destinations.BuildRequestFromPayload | core/src/destination/http.ts:271-280 | a payload that is not yet a request takes its path parameters from the atoms overlaid by its own, and its body from the payload |
| Destinations.BuildRequestOfNullish | core/src/destination/http.ts:262-293 | a null or undefined payload cannot become a request and throws the TypeError for reading `method` |
| Destinations.HttpInvokeReturnsResponse | core/src/destination/http.ts:295-314 | the client's response is returned unchanged; a canonical status naming the current step is recorded exactly when the status is 2xx |
| Destinations.FakeClientUnconfigured | lib/testkit/src/fake-http-client.ts:29-34 | a request the fake client has nothing configured for gets its 404 response, and no canonical status is recorded |
| Destinations.InvokeFileSystem | core/src/destination/fs.ts:29-32 | the new context and the answer are those the file-system invoke function defines |
| Destinations.BuildHttpRequest | core/src/destination/http.ts:262-293 | the new context and the request are those the request-building function defines |
| Destinations.InvokeHttp | core/src/destination/http.ts:295-314 | the new context and the answer are those the HTTP invoke function defines |
| Destinations.InvokeAdapter | core/src/lane/destination.ts:14-18 | whichever adapter is present does the work; with none the answer is undefined |
| Destinations.HodrDestination.constructor | core/src/lane/destination.ts:6-12 | a destination starts out with its name and no adapter |
| Destinations.HodrDestination.Invoke | core/src/lane/destination.ts:14-18 | the call is forwarded to the adapter, and the destination itself does not change |
| FakeHttpClient.Request | lib/testkit/src/fake-http-client.ts:29-41 | an unconfigured URI or method gets the 404 response; a configured static response is never null or undefined |
| FakeHttpClient.ConfiguredResponse | lib/testkit/src/fake-http-client.ts:29-41 | a configured static response is returned as it is; a configured function is called with the request |
| FakeHttpClient.RequestReadsOnlyItsEntry | lib/testkit/src/fake-http-client.ts:30 | only the entry for the request's own URI and method is consulted |
| FakeHttpClient.OtherUriUnaffected | lib/testkit/src/fake-http-client.ts:30-34 | configuring one URI does not change what a request to another URI gets |
| FakeHttpClient.EmptyClientAnswers404 | lib/testkit/src/fake-http-client.ts:31-34 | a client with nothing configured answers every request with status 404 |
| Transform.Split | core/src/engine/transform.ts:6 | `split` on one character never yields an empty list |
| Transform.JoinSplit | core/src/engine/transform.ts:6 | joining the parts of a split gives back the string, and no part contains the separator |
| Transform.SplitCons | core/src/engine/transform.ts:6 | a leading character that is not the separator goes onto the first part |
| Transform.SplitJoin | core/src/engine/transform.ts:6 | splitting a join of separator-free parts gives back the parts |
| Transform.ExtractPathKeepsInput | core/src/engine/transform.ts:2-4 | a falsy input, or a missing or empty reference, is returned unchanged |
| Transform.ExtractPathSplitsString | core/src/engine/transform.ts:6 | a string reference means the list of its '.'-separated parts |
| Transform.WalkConcat | core/src/engine/transform.ts:8-11 | walking a concatenated key list walks the first list, then the second |
| Transform.WalkFromNonObject | core/src/engine/transform.ts:9 | a step from null, undefined or a primitive gives undefined, and so does every later step |
| Transform.WalkObject | core/src/engine/transform.ts:10 | on an object, each key reads that property, or undefined when it is absent |
| Transform.ExtractDottedPath | core/src/engine/transform.ts:1-12 | on a truthy input, a dotted path reads the nested property one key after another |
| Transform.ExactClauseWins | core/test/engine/transform-mapStatusCode.test.ts:36-45 | the first exact clause for the code decides, wherever the range clauses stand |
| Transform.RangeClauseApplies | core/test/engine/transform-mapStatusCode.test.ts:19-34 | with no exact clause, the first range that contains the code (both ends inclusive) decides |
| Transform.NoClauseKeepsCode | core/test/engine/transform-mapStatusCode.test.ts:5-17 | a code that no clause matches is returned unchanged |
| Transform.MapStatusCodeAsTested | core/test/engine/transform-mapStatusCode.test.ts:5-45 | the remappings the tests expect, for each of their two status maps |
| Transform.ExtractMapString | core/test/engine/transform-extract.test.ts:48-72 | a string directive gives the bare value of its expression |
| Transform.ExtractEntriesKeys | core/test/engine/transform-extract.test.ts:5-46 | a successful map directive gives exactly the names it lists |
| Transform.ExtractEntriesValue | core/test/engine/transform-extract.test.ts:5-46 | each name holds the value of the last expression given for it |
| Transform.ExtractMapFields | core/src/lane/step.ts:81-86 | a successful map directive gives an object over exactly its names, each holding the value of its last expression |
| Transform.ExtractEntriesParseError | core/src/lane/step.ts:81-86 | one expression that does not parse makes the whole directive fail |
| Transform.ExtractEntriesReporterNeutral | core/src/lane/step.ts:79-86 | passing a comparison reporter does not change what is extracted out of a directive's entries |
| Transform.ExtractMapReporterNeutral | core/src/lane/step.ts:79-86 | passing a comparison reporter does not change what the directive extracts |
| Validate.ExecuteMatcher | core/src/engine/validate.ts:30-51 | the step's result is that of trying the patterns in order, after the TypeError for a null or undefined payload |
| Validate.IncludesBounds | core/src/engine/validate.ts:15-17 | a range includes a numeric status exactly when the status lies between both ends, inclusive |
| Validate.MatchStatusNumbers | core/src/engine/validate.ts:20-28 | a number pattern matches only its own status; a range pattern matches by inclusion |
| Validate.MissingStatusRejected | core/src/engine/validate.ts:20-28 | a response with no numeric status matches no pattern and is rejected |
| Validate.MatcherAccepts | core/src/engine/validate.ts:38-42 | a response that some pattern matches passes through unchanged |
| Validate.MatcherRejects | core/src/engine/validate.ts:44-48 | a rejected response throws a HodrError carrying the status under `http.statusCode`, coded by the status's internal code or 'internal-error' |
| Validate.MatcherOfNullish | core/src/engine/validate.ts:36 | a null or undefined payload throws the TypeError of reading `statusCode`, whatever the patterns |
| Validate.NoPatternsRejectAll | core/src/engine/validate.ts:30-51 | with no patterns every response is rejected |
| Validate.RejectedErrorStatusRoundTrip | core/src/engine/validate.ts:44-48 | a rejected error status gets the internal code whose HTTP status is that same status |
| Tracker.LimitOf | core/src/engine/tracker.ts:20 | a missing or zero limit becomes 100, and any other limit is kept |
| Tracker.NameOf | core/src/engine/tracker.ts:19 | the configured name, or else the fallback name |
| Tracker.FactoryConfig | core/src/engine/tracker.ts:35-39 | the factory's spread configuration gives the same name and limit as the one it was handed |
| Tracker.MemoryTracker.constructor | core/src/engine/tracker.ts:16-21 | the name defaults to 'memory-tracker', a missing or zero limit becomes 100, and nothing is recorded yet |
| Tracker.MemoryTracker.GetRecorded | core/src/engine/tracker.ts:23-25 | every recorded context, oldest first |
| Tracker.MemoryTracker.Record | core/src/engine/tracker.ts:27-29 | the context is appended, whatever the limit |
| Tracker.NewMemoryTracker | core/src/engine/tracker.ts:35-40 | a new tracker with nothing recorded, named and limited as the constructor would do it |
| Tracker.MemoryRecorder.constructor | core/src/engine/recorder.ts:15-20 | the name defaults to 'memory-recorder', a missing or zero limit becomes 100, and nothing is recorded yet |
| Tracker.MemoryRecorder.GetRecorded | core/src/engine/recorder.ts:22-24 | every recorded context, oldest first |
| Tracker.MemoryRecorder.Record | core/src/engine/recorder.ts:26-28 | the context is appended, whatever the limit |
| Tracker.NewMemoryRecorder | core/src/engine/recorder.ts:34-39 | a new recorder with nothing recorded, named and limited as the constructor would do it |
| Tracker.RecordAll | core/src/hodr.ts:61-65 | every tracker in the list records the context exactly once |
| Tracker.RecordEach | core/src/engine/execution.ts:9 | the contexts each lane run records, taken in turn, leave every tracker with all of them appended, in order |
| Origin.ExecutionParams | core/src/lane/origin.ts:19-37 | the context is built with the origin's name, the input's name and its variant; the initial step is current; the metadata defaults to `{}`; the input topic is empty |
| Origin.NewExecutionStarts | core/src/lane/origin.ts:19-37 | a new execution is running, has no lane records, and its current record is the initial step |
| Origin.NewExecution | core/src/lane/origin.ts:19-37 | the new context is the one those parameters describe |
| Origin.FunctionInitialStep | core/src/lane/origin.ts:88-99 | the 'function-prepare' record is already finalized, and both its input and its output are the argument |
| Origin.FunctionFinalizeParams | core/src/lane/origin.ts:110-114 | the 'function-finalize' step begins with status `error` and the normalised error as input when something was thrown, else `finalized` and the payload |
| Origin.FunctionFinish | core/src/lane/origin.ts:110-121 | after the lane, the context is finalized and terminated; what was thrown is thrown again, else the payload is returned; the records and payload are kept |
| Origin.InvokeCompletes | core/src/lane/origin.ts:101-122 | a lane that completes returns its last step's output (the argument when the lane is empty); every record is finalized and the context ends finalized |
| Origin.InvokeFails | core/src/lane/origin.ts:101-122 | a lane that throws makes the invocation throw the same value; the context ends in error and its last record is the failing step, marked as failed |
| Origin.InvokeFalsyThrow | core/src/lane/origin.ts:110-121 | a falsy thrown value does not count as thrown, so the invocation returns the payload and ends finalized |
| Origin.FunctionInput.constructor | core/src/lane/origin.ts:75-82 | the input keeps its module, its name and its lane |
| Origin.FunctionInput.Variant | core/src/lane/origin.ts:84-86 | the variant of a function input is 'function' |
| Origin.FunctionInput.RunAndFinish | core/src/lane/origin.ts:104-121 | the new context and the outcome are those the run-and-finish function defines; the first recorded context is the invocation's own, the others are new, and none occurs twice |
| Origin.FunctionInput.Invoke | core/src/lane/origin.ts:101-122 | the new context and the outcome are those the function-run function defines, starting from a fresh execution; each tracker has recorded that context, then only contexts created during the run, none twice |
| Origin.InputsOf | core/src/lane/origin.ts:49-51 | the inputs under the given names, in that order |
| Origin.ModuleOrigin.constructor | core/src/lane/origin.ts:40-47 | a module starts with its name and no functions |
| Origin.ModuleOrigin.Inputs | core/src/lane/origin.ts:49-51 | the registered inputs, in the order their names were first registered |
| Origin.ModuleOrigin.Function | core/src/lane/origin.ts:53-58 | a fresh input with an empty lane is put under the name, replacing any earlier one, and the builder returned adds steps to that lane |
| Origin.ModuleOrigin.GetFunction | core/src/lane/origin.ts:60-69 | the input registered under the name, or the "No such function" error |
| Origin.NoSuchFunctionMessage | core/src/lane/origin.ts:62-64 | the error names the function asked for, and its code is 'internal-error' |
| Registry.AppIdOf | core/src/hodr.ts:20 | the configured application id, or else 'hodr-app' |
| Registry.AppNameOf | core/src/hodr.ts:21 | the configured application name, or else 'Hodr Application' |
| Registry.ModuleNameOf | core/src/hodr.ts:34 | the module `function(name)` registers in is named `<name>-module` |
| Registry.TrackersDistinct | core/src/hodr.ts:52 | trackers kept under their own names are distinct objects |
| Registry.Hodr.constructor | core/src/hodr.ts:10-22 | a new registry has the configured or default id and name, and no origins, destinations, trackers or validators |
| Registry.Hodr.Trackers | core/src/hodr.ts:62 | `Object.values` of the trackers lists each registered tracker exactly once |
| Registry.Hodr.Root | core/src/hodr.ts:14-17 | what a lane sees of the registry: its destinations and validators |
| Registry.Hodr.Module | core/src/hodr.ts:24-31 | an origin already under the name is returned, whatever it is; otherwise a new empty module is registered under the name |
| Registry.Hodr.Function | core/src/hodr.ts:33-35 | the function gets an empty lane in the module `<name>-module`; when a router holds that name, the call fails with a TypeError |
| Registry.Hodr.Router | core/src/hodr.ts:37-41 | a new router without routes replaces whatever origin was under the name |
| Registry.Hodr.Destination | core/src/hodr.ts:43-47 | a new destination without an adapter is put under the name, and its builder is returned |
| Registry.Hodr.Use | core/src/hodr.ts:49-59 | a tracker replaces any tracker of the same name; a validator goes after the others; any other feature is ignored |
| Registry.Hodr.Record | core/src/hodr.ts:61-65 | every registered tracker records the context exactly once |
| Route.PayloadAsIs | core/src/router/router.ts:17 | the default payload finalizer answers with the payload itself |
| Route.ErrorAsIs | core/src/router/router.ts:18 | the default error formatter answers with the error itself |
| Route.RouteInitialStep | core/src/router/route.ts:43-67 | a pending initial record named by the adapter, whose input is the raw context and output the request; descriptions the adapter gives win over '<name> Context' and 'Hodr HTTP Request' |
| Route.RouteStart | core/src/router/route.ts:85-95 | the lane runs on the extracted request in a new execution; the origin is router, path and method; the input topic is the request URI; the initial step is finalized; the metadata is the adapter's |
| Route.LaneError | core/src/router/route.ts:97-103 | an error exactly when the lane threw, normalised by `HodrError.fromThrown` |
| Route.RouteFinalizeParams | core/src/router/route.ts:105-110 | the finalize step begins as `error` with the error as input, or as `pending` with the payload; its output description is 'Response Body' |
| Route.ErrorStatus | core/src/router/route.ts:113-114 | the HTTP status of the error's code, or 500 when its code has none |
| Route.ResponseStatus | core/src/router/route.ts:112-117 | the error's status after a failure; otherwise the canonical status, with 200 as fallback |
| Route.ResponseBody | core/src/router/route.ts:119-127 | the formatter's or finalizer's answer; when that throws, the normalised error is the body and replaces the error |
| Route.Response | core/src/router/route.ts:112-117 | the response carries the status code and the body, and no headers |
| Route.HeadEntry | core/src/router/route.ts:132-139 | the 'head' journal entry carries the response's status code |
| Route.SendingContext | core/src/router/route.ts:123-127 | the finalize step is marked as failed when the body could not be made, and nothing else changes |
| Route.Concluded | core/src/router/route.ts:129-141 | the finalize step takes the body as its output and the head entry last in its journal; then the context ends in the finalize step's state |
| Route.FailedRequest | core/src/router/route.ts:97-117 | after a lane failure the status is that of the error's code, or 500, whatever the formatter does; the finalize step's input is the error and the context ends failed |
| Route.ErrorStatusOfCode | core/src/router/route.ts:113-114 | an error carrying an internal error code answers with that code's HTTP status; any other code answers 500 |
| Route.UnknownCodeStatus | core/src/router/route.ts:114 | an error whose code hodr does not know answers 500 |
| Route.ThrownErrorStatus | core/src/router/route.ts:99-114 | a thrown HodrError keeps its status; an Error keeps its message and name and answers 500 unless its name is an internal error code; a thrown string keeps its text; anything but an Error answers 500 |
| Route.SucceededRequest | core/src/router/route.ts:105-117 | after success the status is the canonical status recorded during the run, or 200 when there is none; the finalize step's input is the payload |
| Route.BodyFromFormatter | core/src/router/route.ts:119-122 | a finalizer or formatter that succeeds gives the body; the context ends finalized when the lane did and failed when it did not |
| Route.BodyWhenFormatterThrows | core/src/router/route.ts:123-127 | a finalizer or formatter that throws makes the normalised error the body and fails the finalize step; the status already chosen stays |
| Route.ResponseRecorded | core/src/router/route.ts:129-141 | the response sent is recorded on the finalize step: the body as its output, the head entry last in its journal; the context ends with no current step and the lane records kept |
| Route.EndsFailedIff | core/src/router/route.ts:105-141 | the request's context ends failed exactly when the lane or the finalizer/formatter threw |
| Route.RouteRunsOnRequest | core/src/router/route.ts:85-103 | the lane runs with the initial step finalized and left alone; the origin's variant is the method; the input topic is the URI; an empty lane leaves the request as payload |
| Route.HodrRoute.constructor | core/src/router/route.ts:21-31 | the route keeps its router, method, path, lane, finalizer and formatter |
| Route.HodrRoute.Variant | core/src/router/route.ts:33-35 | a route's variant is its method |
| Route.HodrRoute.Info | core/src/router/route.ts:85 | what the adapter is shown of the route: its method, router and path |
| Route.HodrRoute.Begin | core/src/router/route.ts:85-95 | the request's new context is the one the start function describes |
| Route.HodrRoute.FailFinalizeStep | core/src/router/route.ts:126 | the finalize step's state becomes `error` and every other field of the context is kept |
| Route.HodrRoute.Conclude | core/src/router/route.ts:130-141 | the new context is the concluded one: the body as output, the head journaled, terminated |
| Route.HodrRoute.Finish | core/src/router/route.ts:105-141 | the raw context, the response and the new context are those the finish function defines |
| Route.HodrRoute.Respond | core/src/router/route.ts:97-141 | running the lane and then answering gives what the run-from function defines; the recorded contexts are this one, then new ones, none twice |
| Route.HodrRoute.RunAndRespond | core/src/router/route.ts:85-141 | the whole request gives what the route-run function defines, from a fresh context; the recorded contexts are new and none occurs twice |
| Route.HodrRoute.HandleRequest | core/src/router/route.ts:81-142 | the whole request gives what the route-run function defines; every tracker records the request's context first, then only contexts created during the run, none twice |
| Router.DefaultHodrRouter.constructor | core/src/router/router.ts:14-25 | a router starts with no routes, a finalizer that passes the payload through and a formatter that answers with the error |
| Router.DefaultHodrRouter.Inputs | core/src/router/router.ts:27-29 | the routes in the order they were added, each naming this router |
| Router.DefaultHodrRouter.SetFinalizePayload | core/src/router/router.ts:31-34 | routes added from now on use the new finalizer; routes already added keep theirs |
| Router.DefaultHodrRouter.SetFormatError | core/src/router/router.ts:36-39 | routes added from now on use the new formatter; routes already added keep theirs |
| Router.DefaultHodrRouter.AddRoute | core/src/router/router.ts:61-74 | one route is appended, with a fresh empty lane and the router's current finalizer and formatter; the builder returned works on that lane |
| Router.DefaultHodrRouter.GetRoute | core/src/router/router.ts:41-43 | a GET route is appended, as `_addRoute` does it |
| Router.DefaultHodrRouter.PostRoute | core/src/router/router.ts:45-47 | a POST route is appended, as `_addRoute` does it |
| Router.DefaultHodrRouter.PutRoute | core/src/router/router.ts:49-51 | a PUT route is appended, as `_addRoute` does it |
| Router.DefaultHodrRouter.PatchRoute | core/src/router/router.ts:53-55 | a PATCH route is appended, as `_addRoute` does it |
| Router.DefaultHodrRouter.DeleteRoute | core/src/router/router.ts:57-59 | a DELETE route is appended, as `_addRoute` does it |
| TestRouteAdapter.MakeRequestContext | lib/testkit/src/test-route-adapter.ts:21-38 | every field the argument gives is kept; a missing method, headers, params, session or body takes its default |
| TestRouteAdapter.DefaultRequestContext | lib/testkit/src/test-route-adapter.ts:29-37 | a context made from a URI alone is a GET with empty headers, params and session, a null body and no response |
| TestRouteAdapter.ExtractRequest | lib/testkit/src/test-route-adapter.ts:44-53 | the request takes its method and URI from the route and its params, headers, session and body from the raw context |
| TestRouteAdapter.ExecutionMetadata | lib/testkit/src/test-route-adapter.ts:54-56 | the test adapter gives no execution metadata |
| TestRouteAdapter.InitialStepMetadata | lib/testkit/src/test-route-adapter.ts:57-63 | the test adapter gives no descriptions and an empty journal |
| TestRouteAdapter.SendResponse | lib/testkit/src/test-route-adapter.ts:64-70 | the response is stored on the raw context under `response`, and nothing else of it changes |
| TestRouteAdapter.TestInitialStep | lib/testkit/src/test-route-adapter.ts:40-63 | through the test adapter the initial step is 'test-router-init', described as 'TestRouter Context' and 'Hodr HTTP Request' |
| TestRouteAdapter.EmptyLaneRun | core/src/engine/execution.ts:11-29 | an empty lane leaves the request's context as it started |
| TestRouteAdapter.EmptyRouteEchoesRequest | core/src/router/route.ts:81-142 | a route with an empty lane and the default formatters answers 200 with the extracted request; the response is stored on the raw context and the context ends finalized |
| TestRouteAdapter.AnswersPayload | lib/testkit/src/test-route-adapter.ts:54-70 | a lane that completed under the test adapter answers 200 with its payload, stored on the raw context |
| TestRouteAdapter.LiteralLaneRun | core/src/engine/execution.ts:11-29 | a lane of one literal step ends with that step's record finalized with the literal, and nothing thrown |
| TestRouteAdapter.LiteralRouteAnswers | core/src/router/route.ts:81-142 | a route whose lane answers a literal value answers 200 with it, with one finalized step record whose input is the request |

## Left out

- Promises and concurrency are left out. Each step runs to completion before the next one starts. The lanes of a parallel step run one after another, in the order they were configured. `Promise.all` gives the same results in that order.
- Timestamps (`startedAt`, `finishedAt`, `Date.now()`) are not modelled, since they come from the clock.
- Floating point is not modelled. Numbers are integers, plus a separate NaN. `Number()` of a text that is not an optionally signed decimal integer is NaN.
- Js.StringToNumber: reads only optionally signed decimal integers, and gives NaN for other texts that JS reads as numbers: prefixed numerals (`"0x10"` is 16, `"0b11"` is 3, `"0o7"` is 7), exponents (`"1e3"`), decimal points (`"1.0"`) and `"Infinity"`. These reach the model through the `#` hint and relational comparisons.
- Strings are sequences of Unicode scalar values. JS `length`, indexing and string `<` work on UTF-16 code units, so a character outside the Basic Multilingual Plane has length 2 in JS and 1 in the model, and the order of two strings differs where such characters meet ones between U+E000 and U+FFFF.
- `desc` of a comparison report is built with `JSON.stringify`. The model replaces it with a structured value holding the left side, the operator and the right side.
- The web inspector, the Koa, Axios and Zod plugins, and the context types' documentation comments are not part of this model. A registered validator such as the Zod one is a function parameter: it is handed a view of the context and may journal on it, as the Zod validator does before it throws.
- The URI templating library (`compile`) is not modelled. It is a function parameter of the HTTP adapter.
- An HTTP client other than the test kit's fake one is abstract. It is a function from request to response that may fail.
- The `root` thunk (`() => Hodr`) is replaced by the environment a run is given. That environment holds the registry's destinations and validators at the time of the run.
- Object identity is not modelled. Arrays and objects inside values compare by contents. Where the source relies on sharing (a lane shared by a route and its builder, or a tracker registered twice), the model uses class references.
- Mutations of the caller's input are not modelled. `Object.assign(params ?? {}, { method })` in `_httpStep` mutates the parameters the caller passed in, and `Object.assign({}, ...)` copies are read-only in the model. The model builds a new parameter record and leaves the caller's alone.
- Builder.ValidateStepOf: a defined but falsy second argument after a first argument that is not a path gets no target path. The source passes that first argument on as the target path.
- Route.HodrRoute.HandleRequest: the trackers receive the request's context after the lane has run, not when `executeLane` starts. They get the same contexts. The order differs whenever a forked lane reaches a nested parallel step after an earlier step: the source starts every lane of a parallel step at once, so each lane's fork is recorded before any lane's nested forks, while the model records each lane's forks depth-first, before the next lane's fork. Trackers keep references, so a tracker that is only read afterwards cannot tell the timing apart, though it can see the order.
- Origin.FunctionInput.Invoke: the trackers receive the contexts after the run, as in `Route.HodrRoute.HandleRequest`.
- TestRouteAdapter.SendResponse: a raw context that is not an object is left as it is. The source's type rules that case out.
- A throwing or asynchronous `sendResponse` of a route adapter is not modelled. Sending is a function of the raw context and the response.
- `Object.values` lists integer-like keys first, in numeric order. The model lists trackers and function inputs in registration order: the order in which their names were first added.
- ObjectPath.Tokenize: its own contract states only that no token is empty. The tokens it produces are stated by the lemmas in `ObjectPathProperties`.
- Steps.UserFn: a transform function, a predicate or a registered validator acts on the context it is handed only through `addJournalEntry` on the running record. Its other writes are not modelled: metadata it assigns, payload objects it changes in place, and the other context methods it could call.
- LaneSemantics.StepSem: its frame holds for user functions that write on the context only through the journal, as Steps.UserFn says.
- LaneSemantics.TransformSem: as Steps.UserFn says, only the function's journal entries reach the context.
- LaneSemantics.EnsureVerdict: as Steps.UserFn says, only the predicate's journal entries reach the context.
- LaneSemantics.EnsureSem: as for LaneSemantics.EnsureVerdict.
- LaneSemantics.ValidateSem: as Steps.UserFn says, only the validator's journal entries reach the context.
- LaneProperties.TransformIntoField: the frame it states assumes the function writes on the context only through the journal, as Steps.UserFn says.
- LaneProperties.TransformWhole: as for LaneProperties.TransformIntoField.
- LaneProperties.ValidateFailureIsBadRequest: as Steps.UserFn says, only the validator's journal entries reach the context.
- Execution.ExecuteTransform: as for LaneSemantics.TransformSem.
- Execution.ExecuteVerdict: as for LaneSemantics.EnsureVerdict.
- Execution.ExecuteEnsure: as for LaneSemantics.EnsureVerdict.
- Execution.ExecuteValidate: as for LaneSemantics.ValidateSem.
- Context.ForkOf: core/src/context/context.ts implements neither `atoms()` nor `fork()`. Only the context interface declares them (core/src/context/types.ts:117,136), and the steps call both. The model reads the atoms as a field of the context. A fork starts from the parent's payload, metadata, atoms, origin and initial step, with a step list of its own; the parallel step gives each lane such a fork through `ctx.fork(lane)` (core/src/lane/step.ts:250).
- Context.HodrContext.Fork: as for Context.ForkOf.
- Route.RouteStart: a route's context starts with no atoms. The core's tests expect atoms built from the request: the path parameters spread out, `params`, `session` and `account` (core/test/router/route.ctx-atoms.test.ts:43-57). The source has no implementation of that, so it is not modelled. The input topic is `String(request.uri)`, where the source assigns `request.uri` whatever its type.
- LaneSemantics.MapStatusCodeSem: the source writes the new status into the payload object itself. That object is also the previous record's output and this record's input, and with the fake client the configured static response, so in the source those change too. In the model only the payload changes. An array or Error payload gets a `statusCode` property in the source; in the model it stays as it was, so a later `validate-http-status` step reads the old status.
- Execution.ExecuteMapStatusCode: as for LaneSemantics.MapStatusCodeSem.
- Route.HodrRoute.Finish: the router's payload finalizer and error formatter (core/src/router/route.ts:120-122) are handed the live context in the source, after the finalize record is current. In the model they see the context only as a value and return only the body, so their journal entries, their metadata writes and any other change they make to the context are not modelled; the finalize record's journal holds only the head entry.
- Route.HodrRoute.Respond: as for Route.HodrRoute.Finish.
- Route.HodrRoute.RunAndRespond: as for Route.HodrRoute.Finish.
- Route.HodrRoute.HandleRequest: the finalizer and formatter act on the context as for Route.HodrRoute.Finish.
- Registry.Hodr.Module: the origin, destination and function registries are maps keyed by name. In the source they are plain objects (core/src/hodr.ts:14-15, core/src/lane/origin.ts:42), so a name of an `Object.prototype` member such as 'constructor', 'toString', 'valueOf' or '__proto__' finds the inherited value. In the model such a name behaves as an unregistered one: `module('constructor')` registers a new module where the source returns `Object`.
- LaneSemantics.CallSem: as for Registry.Hodr.Module; a call to destination 'toString' gives "has not been configured", where the source throws a TypeError because the inherited function has no `invoke`.
- Origin.ModuleOrigin.GetFunction: as for Registry.Hodr.Module; `getFunction('valueOf')` gives "No such function", where the source returns a closure that throws a TypeError when called.
- Registry.Hodr.Destination: as for Registry.Hodr.Module; `destination('__proto__')` adds a key, where the source replaces the registry object's prototype.
- Js.Get: reads own properties only, plus `length` of arrays and strings. Properties inherited from a prototype, such as methods, read as undefined.

## Findings

| source | as written | input that shows it | evidently intended | confidence | as-written member | corrected member |
|---|---|---|---|---|---|---|
| core/src/lane/builder.ts:251-257 | `using(client)` passes the client instance where `DefaultHttpClientDestinationAdapter` expects an `HttpClientConfig`. That constructor finds no `adapter` on a client and throws "No HttpClient-implementation provided". | Any provider, e.g. `hodr.destination('d').httpClient({ endpoint: 'http://x' }).using(makeFakeHttpClientPlugin({}))` | The adapter is built from the stub's configuration with the given provider, so its client is the provider's client and its endpoint is the configured one | not executed | Builder.UsingAsWrittenThrows | Builder.HttpClientStub.Using |
