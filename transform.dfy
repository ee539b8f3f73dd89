/**
 * Path extraction and status-code remapping (core/src/engine/transform.ts):
 * `extractPath` walks a dotted path or a list of keys through nested
 * objects, `mapStatusCode` rewrites an HTTP status by a list of clauses, and
 * `extractMap` evaluates path expressions, alone or keyed by the names of a
 * directive map.
 */
module Transform {
  import opened Wrappers
  import opened Values
  import Js
  import ObjectPath
  import ObjectPathProperties

  // ---------------------------------------------------------------------
  // Splitting and joining on a separator

  /** `s.split(sep)` for a one-character separator: never empty, and "" splits to [""]. */
  function Split(s: string, sep: char): (parts: seq<string>)
    ensures |parts| >= 1
    decreases |s|
  {
    if |s| == 0 then [""]
    else if s[0] == sep then [""] + Split(s[1..], sep)
    else
      var rest := Split(s[1..], sep);
      [[s[0]] + rest[0]] + rest[1..]
  }

  /** `parts.join(sep)`. */
  function Join(parts: seq<string>, sep: char): string
    decreases |parts|
  {
    if |parts| == 0 then ""
    else if |parts| == 1 then parts[0]
    else parts[0] + [sep] + Join(parts[1..], sep)
  }

  predicate Free(part: string, sep: char)
  {
    forall i :: 0 <= i < |part| ==> part[i] != sep
  }

  /** Splitting and joining again gives back the string, and no part holds the separator. */
  lemma {:induction false} JoinSplit(s: string, sep: char)
    ensures Join(Split(s, sep), sep) == s
    ensures forall k :: 0 <= k < |Split(s, sep)| ==> Free(Split(s, sep)[k], sep)
    decreases |s|
  {
    if |s| == 0 {
    } else if s[0] == sep {
      JoinSplit(s[1..], sep);
      var rest := Split(s[1..], sep);
      assert Split(s, sep) == [""] + rest;
      assert Join([""] + rest, sep) == "" + [sep] + Join(rest, sep) by {
        assert ([""] + rest)[1..] == rest;
      }
      assert s == [sep] + s[1..];
      forall k | 0 <= k < |Split(s, sep)|
        ensures Free(Split(s, sep)[k], sep)
      {
        if k > 0 { assert Split(s, sep)[k] == rest[k - 1]; }
      }
    } else {
      JoinSplit(s[1..], sep);
      var rest := Split(s[1..], sep);
      var parts := [[s[0]] + rest[0]] + rest[1..];
      assert Split(s, sep) == parts;
      if |rest| == 1 {
        assert Join(parts, sep) == [s[0]] + rest[0];
        assert Join(rest, sep) == rest[0];
      } else {
        assert parts[1..] == rest[1..];
        assert Join(rest, sep) == rest[0] + [sep] + Join(rest[1..], sep);
        assert Join(parts, sep) == [s[0]] + rest[0] + [sep] + Join(rest[1..], sep);
      }
      assert s == [s[0]] + s[1..];
      forall k | 0 <= k < |parts|
        ensures Free(parts[k], sep)
      {
        if k == 0 {
          assert Free(rest[0], sep);
          forall i | 0 <= i < |parts[0]| ensures parts[0][i] != sep {
            if i > 0 { assert parts[0][i] == rest[0][i - 1]; }
          }
        } else {
          assert parts[k] == rest[k];
        }
      }
    }
  }

  /** Prepending a character that is not the separator extends the first part. */
  lemma SplitCons(c: char, s: string, sep: char)
    requires c != sep
    ensures Split([c] + s, sep) == [[c] + Split(s, sep)[0]] + Split(s, sep)[1..]
  {
    assert ([c] + s)[1..] == s;
  }

  /** Joining parts free of the separator and splitting again gives back the parts. */
  lemma {:induction false} SplitJoin(parts: seq<string>, sep: char)
    requires |parts| >= 1
    requires forall k :: 0 <= k < |parts| ==> Free(parts[k], sep)
    ensures Split(Join(parts, sep), sep) == parts
    decreases |parts|, |parts[0]|
  {
    if |parts[0]| > 0 {
      var c := parts[0][0];
      var shorter := [parts[0][1..]] + parts[1..];
      assert Free(parts[0][1..], sep) by {
        forall i | 0 <= i < |parts[0][1..]| ensures parts[0][1..][i] != sep {
          assert parts[0][1..][i] == parts[0][i + 1];
        }
      }
      forall k | 0 <= k < |shorter| ensures Free(shorter[k], sep) {
        if k > 0 { assert shorter[k] == parts[k]; }
      }
      SplitJoin(shorter, sep);
      assert c != sep;
      if |parts| == 1 {
        assert Join(parts, sep) == [c] + Join(shorter, sep);
      } else {
        assert shorter[1..] == parts[1..];
        assert Join(parts, sep) == [c] + Join(shorter, sep);
      }
      SplitCons(c, Join(shorter, sep), sep);
      assert parts[0] == [c] + parts[0][1..];
      assert parts == [[c] + shorter[0]] + shorter[1..];
    } else if |parts| == 1 {
      assert Join(parts, sep) == "";
    } else {
      SplitJoin(parts[1..], sep);
      var s := Join(parts, sep);
      assert s == [sep] + Join(parts[1..], sep);
      assert s[1..] == Join(parts[1..], sep);
      assert parts == [""] + parts[1..];
    }
  }

  // ---------------------------------------------------------------------
  // extractPath

  /** An `ObjectPathReference`: a dotted path, or the list of keys itself. */
  datatype PathRef = PathString(path: string) | PathParts(parts: seq<string>)

  /** `!!pathRef`: an absent reference and the empty string are falsy; a list is an object. */
  predicate PathRefTruthy(pathRef: Option<PathRef>)
  {
    pathRef.Some? && (pathRef.value.PathString? ==> pathRef.value.path != "")
  }

  /** The keys a reference names: a string is split on `.`. */
  function PartsOf(pathRef: PathRef): seq<string>
  {
    match pathRef
    case PathString(path) => Split(path, '.')
    case PathParts(parts) => parts
  }

  /** One step of the reduction: null, undefined and non-objects give undefined. */
  function StepInto(result: Value, key: string): Value
  {
    if Js.IsNullish(result) || Js.TypeOf(result) != "object" then Undefined
    else Js.Get(result, key)
  }

  /** `parts.reduce(step, v)`. */
  function Walk(v: Value, parts: seq<string>): Value
    decreases |parts|
  {
    if |parts| == 0 then v else Walk(StepInto(v, parts[0]), parts[1..])
  }

  /** extractPath(obj, pathRef). */
  function ExtractPath(obj: Value, pathRef: Option<PathRef>): Value
  {
    if !Js.Truthy(obj) || !PathRefTruthy(pathRef) then obj
    else Walk(obj, PartsOf(pathRef.value))
  }

  /** A falsy input, or a missing or empty reference, gives back the input unchanged. */
  lemma ExtractPathKeepsInput(obj: Value, pathRef: Option<PathRef>)
    requires !Js.Truthy(obj) || pathRef.None? || pathRef == Some(PathString(""))
    ensures ExtractPath(obj, pathRef) == obj
  {
  }

  /** A string reference is the list of its `.`-separated parts. */
  lemma ExtractPathSplitsString(obj: Value, path: string)
    requires path != ""
    ensures ExtractPath(obj, Some(PathString(path))) == ExtractPath(obj, Some(PathParts(Split(path, '.'))))
  {
  }

  /** Walking a concatenation walks the first list of keys, then the second. */
  lemma {:induction false} WalkConcat(v: Value, p: seq<string>, q: seq<string>)
    ensures Walk(v, p + q) == Walk(Walk(v, p), q)
    decreases |p|
  {
    if |p| == 0 {
      assert p + q == q;
    } else {
      assert (p + q)[1..] == p[1..] + q;
      WalkConcat(StepInto(v, p[0]), p[1..], q);
    }
  }

  /** Stepping from null, undefined or a primitive yields undefined, and so does every later step. */
  lemma {:induction false} WalkFromNonObject(v: Value, parts: seq<string>)
    requires |parts| > 0
    requires Js.IsNullish(v) || Js.TypeOf(v) != "object"
    ensures Walk(v, parts) == Undefined
    decreases |parts|
  {
    if |parts| > 1 {
      WalkFromNonObject(Undefined, parts[1..]);
    }
  }

  /** Along nested objects every key reads the property of the object before it. */
  lemma WalkObject(fields: map<string, Value>, key: string, rest: seq<string>)
    ensures Walk(Obj(fields), [key] + rest) == Walk(if key in fields then fields[key] else Undefined, rest)
  {
    assert ([key] + rest)[1..] == rest;
  }

  /** A dotted path of keys walks the keys in turn: `extractPath(payload, 'a.b')` reads `payload.a.b`. */
  lemma ExtractDottedPath(obj: Value, keys: seq<string>)
    requires Js.Truthy(obj) && |keys| >= 1
    requires forall k :: 0 <= k < |keys| ==> Free(keys[k], '.')
    requires |keys| > 1 || keys[0] != ""
    ensures ExtractPath(obj, Some(PathString(Join(keys, '.')))) == Walk(obj, keys)
  {
    SplitJoin(keys, '.');
    assert Join(keys, '.') == "" ==> keys == [""];
  }

  // ---------------------------------------------------------------------
  // mapStatusCode

  /** A clause condition: an exact status, or an inclusive range `[from, to]`. */
  datatype StatusCond = ExactStatus(code: int) | StatusRange(from: int, to: int)

  /** One entry `[condition, mapped]` of a `StatusCondMap`. */
  datatype StatusClause = StatusClause(cond: StatusCond, mapped: int)

  predicate Matches(cond: StatusCond, code: int)
  {
    match cond
    case ExactStatus(c) => code == c
    case StatusRange(from, to) => from <= code <= to
  }

  /** The mapped code of the first exact clause for `code`. */
  function ExactMatch(code: int, clauses: seq<StatusClause>): Option<int>
    decreases |clauses|
  {
    if |clauses| == 0 then None
    else if clauses[0].cond == ExactStatus(code) then Some(clauses[0].mapped)
    else ExactMatch(code, clauses[1..])
  }

  /** The mapped code of the first range clause that includes `code`. */
  function RangeMatch(code: int, clauses: seq<StatusClause>): Option<int>
    decreases |clauses|
  {
    if |clauses| == 0 then None
    else if clauses[0].cond.StatusRange? && Matches(clauses[0].cond, code) then Some(clauses[0].mapped)
    else RangeMatch(code, clauses[1..])
  }

  /** mapStatusCode(code, statusMap): an exact clause first, then a range, else the code itself. */
  function MapStatusCode(code: int, clauses: seq<StatusClause>): int
  {
    match ExactMatch(code, clauses)
    case Some(m) => m
    case None =>
      (match RangeMatch(code, clauses)
       case Some(m) => m
       case None => code)
  }

  lemma {:induction false} ExactMatchFirst(code: int, clauses: seq<StatusClause>, i: nat)
    requires i < |clauses| && clauses[i].cond == ExactStatus(code)
    requires forall j :: 0 <= j < i ==> clauses[j].cond != ExactStatus(code)
    ensures ExactMatch(code, clauses) == Some(clauses[i].mapped)
    decreases i
  {
    if i > 0 {
      ExactMatchFirst(code, clauses[1..], i - 1);
    }
  }

  lemma {:induction false} ExactMatchNone(code: int, clauses: seq<StatusClause>)
    requires forall j :: 0 <= j < |clauses| ==> clauses[j].cond != ExactStatus(code)
    ensures ExactMatch(code, clauses) == None
    decreases |clauses|
  {
    if |clauses| > 0 {
      ExactMatchNone(code, clauses[1..]);
    }
  }

  lemma {:induction false} RangeMatchFirst(code: int, clauses: seq<StatusClause>, i: nat)
    requires i < |clauses| && clauses[i].cond.StatusRange? && Matches(clauses[i].cond, code)
    requires forall j :: 0 <= j < i ==> !(clauses[j].cond.StatusRange? && Matches(clauses[j].cond, code))
    ensures RangeMatch(code, clauses) == Some(clauses[i].mapped)
    decreases i
  {
    if i > 0 {
      RangeMatchFirst(code, clauses[1..], i - 1);
    }
  }

  lemma {:induction false} RangeMatchNone(code: int, clauses: seq<StatusClause>)
    requires forall j :: 0 <= j < |clauses| ==> !(clauses[j].cond.StatusRange? && Matches(clauses[j].cond, code))
    ensures RangeMatch(code, clauses) == None
    decreases |clauses|
  {
    if |clauses| > 0 {
      RangeMatchNone(code, clauses[1..]);
    }
  }

  /** An exact clause for the code wins, wherever range clauses stand. */
  lemma ExactClauseWins(code: int, clauses: seq<StatusClause>, i: nat)
    requires i < |clauses| && clauses[i].cond == ExactStatus(code)
    requires forall j :: 0 <= j < i ==> clauses[j].cond != ExactStatus(code)
    ensures MapStatusCode(code, clauses) == clauses[i].mapped
  {
    ExactMatchFirst(code, clauses, i);
  }

  /** Without an exact clause, the first range that includes the code (both ends inclusive) applies. */
  lemma RangeClauseApplies(code: int, clauses: seq<StatusClause>, i: nat)
    requires forall j :: 0 <= j < |clauses| ==> clauses[j].cond != ExactStatus(code)
    requires i < |clauses| && clauses[i].cond.StatusRange?
    requires clauses[i].cond.from <= code <= clauses[i].cond.to
    requires forall j :: 0 <= j < i ==> !(clauses[j].cond.StatusRange? && Matches(clauses[j].cond, code))
    ensures MapStatusCode(code, clauses) == clauses[i].mapped
  {
    ExactMatchNone(code, clauses);
    RangeMatchFirst(code, clauses, i);
  }

  /** A code no clause matches is returned unchanged. */
  lemma NoClauseKeepsCode(code: int, clauses: seq<StatusClause>)
    requires forall j :: 0 <= j < |clauses| ==> !Matches(clauses[j].cond, code)
    ensures MapStatusCode(code, clauses) == code
  {
    ExactMatchNone(code, clauses);
    RangeMatchNone(code, clauses);
  }

  /** The two status maps of the remapping tests, clause for clause. */
  lemma MapStatusCodeAsTested(code: int)
    ensures var m := [StatusClause(ExactStatus(511), 500), StatusClause(StatusRange(500, 505), 500)];
      (code in {404, 200, 510, 506} ==> MapStatusCode(code, m) == code)
      && (500 <= code <= 505 || code == 511 ==> MapStatusCode(code, m) == 500)
    ensures MapStatusCode(404, [StatusClause(StatusRange(400, 411), 500), StatusClause(ExactStatus(404), 200)]) == 200
  {
  }

  // ---------------------------------------------------------------------
  // extractMap

  /** An extraction directive: a single path expression, or names each bound to one. */
  datatype Directive = DirectivePath(expression: string) | DirectiveMap(entries: seq<(string, string)>)

  /** The value of one path expression, with the comparisons it reported; a parse error propagates. */
  function ExtractOne(obj: Value, expression: string, bindings: map<string, Value>, reporter: bool)
    : Result<ObjectPath.Outcome, ObjectPath.ParseError>
  {
    match ObjectPath.Parse(expression)
    case Ok(node) => Ok(ObjectPath.Eval(node, obj, bindings, reporter))
    case Err(e) => Err(e)
  }

  /** The entries in order; a later entry with the same name overrides an earlier one. */
  function ExtractEntries(obj: Value, entries: seq<(string, string)>, bindings: map<string, Value>, reporter: bool)
    : Result<(map<string, Value>, seq<ObjectPath.Report>), ObjectPath.ParseError>
    decreases |entries|
  {
    if |entries| == 0 then Ok((map[], []))
    else
      match ExtractOne(obj, entries[0].1, bindings, reporter)
      case Err(e) => Err(e)
      case Ok(first) =>
        match ExtractEntries(obj, entries[1..], bindings, reporter)
        case Err(e) => Err(e)
        case Ok((fields, reports)) =>
          Ok((map[entries[0].0 := first.value] + fields, first.reports + reports))
  }

  /** extractMap(obj, directive, bindings, reporter). */
  function ExtractMap(obj: Value, directive: Directive, bindings: map<string, Value>, reporter: bool)
    : Result<ObjectPath.Outcome, ObjectPath.ParseError>
  {
    match directive
    case DirectivePath(expression) => ExtractOne(obj, expression, bindings, reporter)
    case DirectiveMap(entries) =>
      match ExtractEntries(obj, entries, bindings, reporter)
      case Err(e) => Err(e)
      case Ok((fields, reports)) => Ok(ObjectPath.Outcome(Obj(fields), reports))
  }

  /** A string directive yields the bare value of its expression, not wrapped in an object. */
  lemma ExtractMapString(obj: Value, expression: string, bindings: map<string, Value>, reporter: bool, node: ObjectPath.Node)
    requires ObjectPath.Parse(expression) == Ok(node)
    ensures ExtractMap(obj, DirectivePath(expression), bindings, reporter)
      == Ok(ObjectPath.Eval(node, obj, bindings, reporter))
  {
  }

  /** With a map directive the result has exactly the directive's names. */
  lemma {:induction false} ExtractEntriesKeys(obj: Value, entries: seq<(string, string)>, bindings: map<string, Value>, reporter: bool)
    requires ExtractEntries(obj, entries, bindings, reporter).Ok?
    ensures forall k :: k in ExtractEntries(obj, entries, bindings, reporter).value.0 <==>
      exists i :: 0 <= i < |entries| && entries[i].0 == k
    decreases |entries|
  {
    if |entries| > 0 {
      var rest := entries[1..];
      ExtractEntriesKeys(obj, rest, bindings, reporter);
      var fields := ExtractEntries(obj, entries, bindings, reporter).value.0;
      var restFields := ExtractEntries(obj, rest, bindings, reporter).value.0;
      assert fields == map[entries[0].0 := ExtractOne(obj, entries[0].1, bindings, reporter).value.value] + restFields;
      forall k
        ensures k in fields <==> exists i :: 0 <= i < |entries| && entries[i].0 == k
      {
        if k in restFields {
          var i :| 0 <= i < |rest| && rest[i].0 == k;
          assert entries[i + 1].0 == k;
        }
        if exists i :: 0 <= i < |entries| && entries[i].0 == k {
          var i :| 0 <= i < |entries| && entries[i].0 == k;
          if i > 0 { assert rest[i - 1].0 == k; }
        }
      }
    }
  }

  /** Each name holds the value of the last expression given for it. */
  lemma {:induction false} ExtractEntriesValue(obj: Value, entries: seq<(string, string)>, bindings: map<string, Value>, reporter: bool, i: nat)
    requires ExtractEntries(obj, entries, bindings, reporter).Ok?
    requires i < |entries|
    requires forall j :: i < j < |entries| ==> entries[j].0 != entries[i].0
    ensures entries[i].0 in ExtractEntries(obj, entries, bindings, reporter).value.0
    ensures ExtractOne(obj, entries[i].1, bindings, reporter).Ok?
    ensures ExtractEntries(obj, entries, bindings, reporter).value.0[entries[i].0]
      == ExtractOne(obj, entries[i].1, bindings, reporter).value.value
    decreases i
  {
    var rest := entries[1..];
    var restFields := ExtractEntries(obj, rest, bindings, reporter).value.0;
    if i == 0 {
      ExtractEntriesKeys(obj, rest, bindings, reporter);
      forall j | 0 <= j < |rest| ensures rest[j].0 != entries[0].0 {
        assert rest[j] == entries[j + 1];
      }
    } else {
      assert rest[i - 1] == entries[i];
      forall j | i - 1 < j < |rest| ensures rest[j].0 != rest[i - 1].0 {
        assert rest[j] == entries[j + 1];
      }
      ExtractEntriesValue(obj, rest, bindings, reporter, i - 1);
    }
  }

  /** When a map directive succeeds its result is an object over exactly the directive's names,
   *  each holding the value of the last expression given for it. */
  lemma ExtractMapFields(obj: Value, entries: seq<(string, string)>, bindings: map<string, Value>, reporter: bool, i: nat)
    requires ExtractMap(obj, DirectiveMap(entries), bindings, reporter).Ok?
    requires i < |entries|
    requires forall j :: i < j < |entries| ==> entries[j].0 != entries[i].0
    ensures var r := ExtractMap(obj, DirectiveMap(entries), bindings, reporter).value.value;
      r.Obj?
      && (forall k :: k in r.fields <==> exists j :: 0 <= j < |entries| && entries[j].0 == k)
      && ExtractOne(obj, entries[i].1, bindings, reporter).Ok?
      && r.fields[entries[i].0] == ExtractOne(obj, entries[i].1, bindings, reporter).value.value
  {
    ExtractEntriesKeys(obj, entries, bindings, reporter);
    ExtractEntriesValue(obj, entries, bindings, reporter, i);
  }

  /** An expression that does not parse makes the whole map directive fail with its error. */
  lemma {:induction false} ExtractEntriesParseError(obj: Value, entries: seq<(string, string)>, bindings: map<string, Value>, reporter: bool, i: nat)
    requires i < |entries| && ObjectPath.Parse(entries[i].1).Err?
    ensures ExtractEntries(obj, entries, bindings, reporter).Err?
    decreases i
  {
    if i > 0 {
      ExtractEntriesParseError(obj, entries[1..], bindings, reporter, i - 1);
    }
  }

  /** Supplying a reporter does not change what is extracted. */
  lemma {:induction false} ExtractEntriesReporterNeutral(obj: Value, entries: seq<(string, string)>, bindings: map<string, Value>)
    ensures ExtractEntries(obj, entries, bindings, true).Ok? == ExtractEntries(obj, entries, bindings, false).Ok?
    ensures ExtractEntries(obj, entries, bindings, true).Ok? ==>
      ExtractEntries(obj, entries, bindings, true).value.0 == ExtractEntries(obj, entries, bindings, false).value.0
    decreases |entries|
  {
    if |entries| > 0 {
      match ObjectPath.Parse(entries[0].1)
      case Err(_) =>
      case Ok(node) =>
        ObjectPathProperties.ReporterNeutral(node, obj, bindings);
        ExtractEntriesReporterNeutral(obj, entries[1..], bindings);
    }
  }

  lemma ExtractMapReporterNeutral(obj: Value, directive: Directive, bindings: map<string, Value>)
    ensures ExtractMap(obj, directive, bindings, true).Ok? == ExtractMap(obj, directive, bindings, false).Ok?
    ensures ExtractMap(obj, directive, bindings, true).Ok? ==>
      ExtractMap(obj, directive, bindings, true).value.value == ExtractMap(obj, directive, bindings, false).value.value
  {
    match directive {
      case DirectivePath(expression) =>
        match ObjectPath.Parse(expression) {
          case Err(_) =>
          case Ok(node) => ObjectPathProperties.ReporterNeutral(node, obj, bindings);
        }
      case DirectiveMap(entries) =>
        ExtractEntriesReporterNeutral(obj, entries, bindings);
    }
  }
}
