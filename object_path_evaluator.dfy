/**
 * The closures `compile` builds (core/src/engine/object-path.ts), as
 * methods that run the source's loops. Each is proved to compute the
 * evaluation function of ObjectPath: its value and the reports it sends.
 */
module ObjectPathEvaluator {
  import opened Values
  import opened ObjectPath
  import Js
  import opened Wrappers
  import ObjectPathParser

  /** compile(ast)(input, bindings, reporter). */
  method Evaluate(n: Node, input: Value, bindings: map<string, Value>, reporter: bool)
    returns (value: Value, reports: seq<Report>)
    ensures Outcome(value, reports) == Eval(n, input, bindings, reporter)
    decreases n, 0
  {
    match n
    case Literal(v) =>
      value, reports := v, [];
    case ContextRef(name, hint) =>
      value, reports := ApplyTypeHint(hint, Js.Get(Obj(bindings), name)), [];
    case ContextPathRef(path, hint) =>
      value := ResolvePath(bindings, path, hint);
      reports := [];
    case PropertyPath(segments) =>
      value, reports := EvaluatePath(segments, input, bindings, reporter);
    case Comparison(op, left, right) =>
      var l, leftReports := Evaluate(left, input, bindings, false);
      var r, rightReports := Evaluate(right, input, bindings, false);
      var result := ApplyComparison(l, r, op);
      value := Bool(result);
      reports := if reporter then [Report(op, l, r, result)] else [];
  }

  /** The contextPathRef closure: walk the bindings, stopping at null or undefined. */
  method ResolvePath(bindings: map<string, Value>, path: seq<string>, hint: Option<TypeHint>)
    returns (value: Value)
    ensures Outcome(value, []) == Eval(ContextPathRef(path, hint), Undefined, bindings, false)
  {
    var v := Obj(bindings);
    var i := 0;
    while i < |path|
      invariant 0 <= i <= |path|
      invariant ResolveContextPath(Obj(bindings), path) == ResolveContextPath(v, path[i..])
    {
      if Js.IsNullish(v) {
        return Undefined;
      }
      v := Js.Get(v, path[i]);
      i := i + 1;
    }
    value := ApplyTypeHint(hint, v);
  }

  /** The propertyPath closure: apply each segment, returning undefined on null or undefined. */
  method EvaluatePath(segments: seq<Segment>, input: Value, bindings: map<string, Value>, reporter: bool)
    returns (value: Value, reports: seq<Report>)
    ensures Outcome(value, reports) == EvalSegments(segments, input, bindings, reporter)
    decreases segments, 1
  {
    value, reports := input, [];
    var i := 0;
    while i < |segments|
      invariant 0 <= i <= |segments|
      invariant EvalSegments(segments, input, bindings, reporter)
        == Prefixed(reports, EvalSegments(segments[i..], value, bindings, reporter))
    {
      var next, sent := EvaluateSegment(segments[i], value, bindings, reporter);
      PathAdvance(segments, input, bindings, reporter, i, value, reports, next, sent);
      reports := reports + sent;
      if Js.IsNullish(next) {
        return Undefined, reports;
      }
      value := next;
      i := i + 1;
    }
  }

  /** An outcome with earlier reports in front of its own. */
  function Prefixed(earlier: seq<Report>, o: Outcome): Outcome
  {
    Outcome(o.value, earlier + o.reports)
  }

  /** One iteration of the segment loop keeps the walk's outcome. */
  lemma PathAdvance(segments: seq<Segment>, input: Value, bindings: map<string, Value>, reporter: bool,
                    i: nat, value: Value, reports: seq<Report>, next: Value, sent: seq<Report>)
    requires i < |segments|
    requires EvalSegments(segments, input, bindings, reporter)
      == Prefixed(reports, EvalSegments(segments[i..], value, bindings, reporter))
    requires Outcome(next, sent) == EvalSegment(segments[i], value, bindings, reporter)
    ensures Js.IsNullish(next) ==> EvalSegments(segments, input, bindings, reporter) == Outcome(Undefined, reports + sent)
    ensures !Js.IsNullish(next) ==>
      EvalSegments(segments, input, bindings, reporter)
        == Prefixed(reports + sent, EvalSegments(segments[i + 1..], next, bindings, reporter))
  {
    assert segments[i..][0] == segments[i];
    assert segments[i..][1..] == segments[i + 1..];
    var rest := EvalSegments(segments[i + 1..], next, bindings, reporter);
    assert reports + (sent + rest.reports) == (reports + sent) + rest.reports;
  }

  /** compileSegment(segment)(input, bindings, reporter). */
  method EvaluateSegment(segment: Segment, input: Value, bindings: map<string, Value>, reporter: bool)
    returns (value: Value, reports: seq<Report>)
    ensures Outcome(value, reports) == EvalSegment(segment, input, bindings, reporter)
    decreases segment
  {
    match segment
    case Property(name) =>
      value, reports := Js.Get(input, name), [];
    case Filtered(name, filter) =>
      var list := Js.Get(input, name);
      if !list.Arr? {
        return Undefined, [];
      }
      value, reports := FindFirst(list.items, filter, bindings, reporter);
  }

  /** `list.find(item => filterFn(item, bindings, reporter))`. */
  method FindFirst(items: seq<Value>, filter: Node, bindings: map<string, Value>, reporter: bool)
    returns (value: Value, reports: seq<Report>)
    ensures Outcome(value, reports) == Find(items, filter, bindings, reporter)
    decreases filter, 1
  {
    reports := [];
    var i := 0;
    while i < |items|
      invariant 0 <= i <= |items|
      invariant Find(items, filter, bindings, reporter)
        == Prefixed(reports, Find(items[i..], filter, bindings, reporter))
    {
      var test, sent := Evaluate(filter, items[i], bindings, reporter);
      FindAdvance(items, filter, bindings, reporter, i, reports, test, sent);
      reports := reports + sent;
      if Js.Truthy(test) {
        return items[i], reports;
      }
      i := i + 1;
    }
    value := Undefined;
  }

  /** One iteration of the search keeps the outcome of `find`. */
  lemma FindAdvance(items: seq<Value>, filter: Node, bindings: map<string, Value>, reporter: bool,
                    i: nat, reports: seq<Report>, test: Value, sent: seq<Report>)
    requires i < |items|
    requires Find(items, filter, bindings, reporter) == Prefixed(reports, Find(items[i..], filter, bindings, reporter))
    requires Outcome(test, sent) == Eval(filter, items[i], bindings, reporter)
    ensures Js.Truthy(test) ==> Find(items, filter, bindings, reporter) == Outcome(items[i], reports + sent)
    ensures !Js.Truthy(test) ==>
      Find(items, filter, bindings, reporter)
        == Prefixed(reports + sent, Find(items[i + 1..], filter, bindings, reporter))
  {
    assert items[i..][0] == items[i];
    assert items[i..][1..] == items[i + 1..];
    var rest := Find(items[i + 1..], filter, bindings, reporter);
    assert reports + (sent + rest.reports) == (reports + sent) + rest.reports;
  }

  /** parseAndCompile(expression) applied to an input. */
  method ParseAndEvaluate(expression: string, input: Value, bindings: map<string, Value>, reporter: bool)
    returns (r: Result<Outcome, ParseError>)
    ensures Parse(expression).Ok? ==> r == Ok(Eval(Parse(expression).value, input, bindings, reporter))
    ensures Parse(expression).Err? ==> r == Err(Parse(expression).error)
  {
    var parsed := ObjectPathParser.Parse(expression);
    if parsed.Err? {
      return Err(parsed.error);
    }
    var value, reports := Evaluate(parsed.value, input, bindings, reporter);
    r := Ok(Outcome(value, reports));
  }
}
