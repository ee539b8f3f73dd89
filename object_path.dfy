/**
 * The object-path expression language (core/src/engine/object-path.ts):
 * the tokenizer, the abstract syntax, the grammar as a functional
 * specification of the recursive-descent parser, and the meaning of a
 * compiled expression as a total evaluation function.
 *
 * An expression is a dotted property path whose segments may carry a filter
 * (`comments[id=#commentId].text`), optionally compared with a right-hand
 * value (`comments.length>0`). Right-hand identifiers are looked up in a
 * binding map, optionally coerced by a type prefix: `#` number, `$` string,
 * `!` boolean.
 */
module ObjectPath {
  import opened Wrappers
  import opened Values
  import Js
  import Types

  // ---------------------------------------------------------------------
  // Tokenizer: the global match of
  //   [#!$]?[a-zA-Z_][a-zA-Z0-9_]* | [><=!]=? | <string> | \d+ | \[ | \] | \.
  // where <string> is a double-quoted run of characters other than the quote
  // and the backslash, or of a backslash followed by any character but a line
  // terminator.

  /** The double quote, which opens and closes a string literal. */
  const DoubleQuote: char := 34 as char

  /** The backslash, which escapes the character after it inside a string literal. */
  const Backslash: char := 92 as char

  predicate IsIdentStart(c: char) { 'a' <= c <= 'z' || 'A' <= c <= 'Z' || c == '_' }

  predicate IsIdentChar(c: char) { IsIdentStart(c) || Js.IsDigit(c) }

  predicate IsHintPrefix(c: char) { c == '#' || c == '!' || c == '$' }

  predicate IsOperatorChar(c: char) { c == '>' || c == '<' || c == '=' || c == '!' }

  /** The characters `.` does not match in a regular expression without the `s` flag. */
  predicate IsLineTerminator(c: char) { c == '\n' || c == '\r' || c == '\U{2028}' || c == '\U{2029}' }

  /** The end of the run of identifier characters starting at `i`. */
  function IdentEnd(s: string, i: nat): (j: nat)
    requires i <= |s|
    ensures i <= j <= |s|
    decreases |s| - i
  {
    if i < |s| && IsIdentChar(s[i]) then IdentEnd(s, i + 1) else i
  }

  /** The end of the run of digits starting at `i`. */
  function DigitsEnd(s: string, i: nat): (j: nat)
    requires i <= |s|
    ensures i <= j <= |s|
    decreases |s| - i
  {
    if i < |s| && Js.IsDigit(s[i]) then DigitsEnd(s, i + 1) else i
  }

  /** The end of the greedy `(?:[^"\\]|\\.)*` run starting at `i`. */
  function StringBodyEnd(s: string, i: nat): (j: nat)
    requires i <= |s|
    ensures i <= j <= |s|
    decreases |s| - i
  {
    if i < |s| && s[i] != DoubleQuote && s[i] != Backslash then StringBodyEnd(s, i + 1)
    else if i + 1 < |s| && s[i] == Backslash && !IsLineTerminator(s[i + 1]) then StringBodyEnd(s, i + 2)
    else i
  }

  /**
   * The length of the match of the token expression at the start of `s`,
   * trying the alternatives in their order, or 0 when none matches there.
   */
  function TokenLength(s: string): (n: nat)
    ensures n <= |s|
  {
    if |s| == 0 then 0
    else if IsIdentStart(s[0]) then IdentEnd(s, 1)
    else if IsHintPrefix(s[0]) && |s| > 1 && IsIdentStart(s[1]) then IdentEnd(s, 2)
    else if IsOperatorChar(s[0]) then (if |s| > 1 && s[1] == '=' then 2 else 1)
    else if s[0] == DoubleQuote then
      (var j := StringBodyEnd(s, 1); if j < |s| && s[j] == DoubleQuote then j + 1 else 0)
    else if Js.IsDigit(s[0]) then DigitsEnd(s, 1)
    else if s[0] == '[' || s[0] == ']' || s[0] == '.' then 1
    else 0
  }

  /** `str.match(re) || []`: every match in order; a position where nothing matches is skipped. */
  function Tokenize(s: string): (tokens: seq<string>)
    ensures forall k :: 0 <= k < |tokens| ==> |tokens[k]| > 0
    decreases |s|
  {
    if |s| == 0 then []
    else
      var n := TokenLength(s);
      if n == 0 then Tokenize(s[1..]) else [s[..n]] + Tokenize(s[n..])
  }

  // ---------------------------------------------------------------------
  // Abstract syntax

  datatype Operator = Eq | Ne | Gt | Ge | Lt | Le

  datatype TypeHint = NumberHint | StringHint | BooleanHint

  datatype Node =
    | PropertyPath(segments: seq<Segment>)
    | Comparison(op: Operator, left: Node, right: Node)
    | Literal(value: Value)
    | ContextRef(name: string, hint: Option<TypeHint>)
    | ContextPathRef(path: seq<string>, hint: Option<TypeHint>)

  datatype Segment =
    | Property(name: string)
    | Filtered(name: string, filter: Node)

  /** The comparison operator a token spells, if any. */
  function OperatorOf(token: string): Option<Operator>
  {
    if token == "=" then Some(Eq)
    else if token == "!=" then Some(Ne)
    else if token == ">" then Some(Gt)
    else if token == "<" then Some(Lt)
    else if token == ">=" then Some(Ge)
    else if token == "<=" then Some(Le)
    else None
  }

  /** The operator as it is shown in a comparison report. */
  function Legend(op: Operator): string
  {
    match op
    case Eq => "==="
    case Ne => "!=="
    case Gt => ">"
    case Lt => "<"
    case Ge => ">="
    case Le => "<="
  }

  // ---------------------------------------------------------------------
  // Grammar

  /** Why `parse` throws: an invalid identifier, a missing `]`, or a TypeError
   *  from reading an identifier past the last token. */
  datatype ParseError =
    | InvalidIdentifier(token: string)
    | ExpectedCloseBracket
    | MissingIdentifier

  /** The exception `parse` raises for an error. */
  function ParseErrorThrown(e: ParseError): Types.Thrown
  {
    match e
    case InvalidIdentifier(t) => Types.ThrowNative("Error", "Invalid identifier: " + t)
    case ExpectedCloseBracket => Types.ThrowNative("Error", "Expected ]")
    case MissingIdentifier => Types.ThrowNative("TypeError", "Cannot read properties of undefined (reading 'match')")
  }

  /** `tokens[index]`, which is undefined past the end. */
  function TokenAt(tokens: seq<string>, i: nat): Option<string>
  {
    if i < |tokens| then Some(tokens[i]) else None
  }

  /** `tokens[i]` where a string is expected; undefined reads as "undefined". */
  function KeyAt(tokens: seq<string>, i: nat): string
  {
    if i < |tokens| then tokens[i] else "undefined"
  }

  function Remaining(tokens: seq<string>, i: nat): nat
  {
    if i <= |tokens| then |tokens| - i else 0
  }

  /** `/^[a-zA-Z_][a-zA-Z0-9_]*$/`. */
  predicate IsIdentifier(t: string)
  {
    |t| > 0 && IsIdentStart(t[0]) && forall k :: 1 <= k < |t| ==> IsIdentChar(t[k])
  }

  /** `/^[#!$]?[a-zA-Z_]/`: a token parseValue reads as a reference path. */
  predicate LooksLikeReference(t: string)
  {
    (|t| > 0 && IsIdentStart(t[0])) || (|t| > 1 && IsHintPrefix(t[0]) && IsIdentStart(t[1]))
  }

  /** `/^"[^"]+"$/`. */
  predicate IsQuotedLiteral(t: string)
  {
    |t| >= 3 && t[0] == DoubleQuote && t[|t| - 1] == DoubleQuote && forall k :: 1 <= k < |t| - 1 ==> t[k] != DoubleQuote
  }

  /** `/^[0-9]+$/`. */
  predicate IsDigitRun(t: string)
  {
    |t| > 0 && Js.AllDigits(t)
  }

  /** The type hint a reference token's prefix selects. */
  function HintOf(base: string): Option<TypeHint>
  {
    if |base| > 0 && base[0] == '#' then Some(NumberHint)
    else if |base| > 0 && base[0] == '!' then Some(BooleanHint)
    else if |base| > 0 && base[0] == '$' then Some(StringHint)
    else None
  }

  /** The reference name with its type prefix removed. */
  function NameOf(base: string): string
  {
    if HintOf(base).Some? then base[1..] else base
  }

  /** The parsed node and the index of the first token not consumed. */
  type Parsed<T> = Result<(T, nat), ParseError>

  /** parseExpression: a path, optionally followed by an operator and a value. */
  function ParseExpr(tokens: seq<string>, i: nat): (r: Parsed<Node>)
    ensures r.Ok? ==> r.value.1 > i
    ensures r.Ok? ==> r.value.0.PropertyPath? || (r.value.0.Comparison? && r.value.0.left.PropertyPath?)
    decreases Remaining(tokens, i), 2
  {
    match PathLoop(tokens, i, [])
    case Err(e) => Err(e)
    case Ok((left, j)) =>
      var op := if j < |tokens| then OperatorOf(tokens[j]) else None;
      if op.Some? then
        var (right, k) := ParseValue(tokens, j + 1);
        Ok((Comparison(op.value, left, right), k))
      else Ok((left, j))
  }

  /** The loop of parsePath, with the segments pushed so far. */
  function PathLoop(tokens: seq<string>, i: nat, segments: seq<Segment>): (r: Parsed<Node>)
    ensures r.Ok? ==> r.value.1 > i && r.value.0.PropertyPath? && |r.value.0.segments| > |segments|
    decreases Remaining(tokens, i), 1
  {
    match ParseSegment(tokens, i)
    case Err(e) => Err(e)
    case Ok((seg, k)) =>
      if TokenAt(tokens, k) != Some(".") then Ok((PropertyPath(segments + [seg]), k))
      else PathLoop(tokens, k + 1, segments + [seg])
  }

  /** One iteration of parsePath: an identifier, then a bracketed filter if `[` follows. */
  function ParseSegment(tokens: seq<string>, i: nat): (r: Parsed<Segment>)
    ensures r.Ok? ==> r.value.1 > i
    decreases Remaining(tokens, i), 0
  {
    if i >= |tokens| then Err(MissingIdentifier)
    else if !IsIdentifier(tokens[i]) then Err(InvalidIdentifier(tokens[i]))
    else if TokenAt(tokens, i + 1) != Some("[") then Ok((Property(tokens[i]), i + 1))
    else
      match ParseExpr(tokens, i + 2)
      case Err(e) => Err(e)
      case Ok((filter, j)) =>
        if TokenAt(tokens, j) != Some("]") then Err(ExpectedCloseBracket)
        else Ok((Filtered(tokens[i], filter), j + 1))
  }

  /** parseValue: a reference path, an integer literal, a string literal, or a bare reference. */
  function ParseValue(tokens: seq<string>, i: nat): (r: (Node, nat))
    ensures r.1 > i
  {
    // a missing token is undefined, which the regular expressions read as "undefined"
    var tok := KeyAt(tokens, i);
    if LooksLikeReference(tok) then ContextPathLoop(tokens, i + 1, [NameOf(tok)], HintOf(tok))
    else if IsDigitRun(tok) then (Literal(Num(Js.DigitsValue(tok))), i + 1)
    else if IsQuotedLiteral(tok) then (Literal(Str(tok[1..|tok| - 1])), i + 1)
    else (ContextRef(tok, None), i + 1)
  }

  /** The loop of parseContextPath: each `.` is followed by one more key. */
  function ContextPathLoop(tokens: seq<string>, i: nat, path: seq<string>, hint: Option<TypeHint>): (r: (Node, nat))
    ensures r.1 >= i
    ensures r.0.ContextPathRef? && r.0.hint == hint && |r.0.path| >= |path| && r.0.path[..|path|] == path
    decreases Remaining(tokens, i)
  {
    if TokenAt(tokens, i) != Some(".") then (ContextPathRef(path, hint), i)
    else ContextPathLoop(tokens, i + 2, path + [KeyAt(tokens, i + 1)], hint)
  }

  /** `parse(expression)`: tokens left after a complete expression are ignored. */
  function Parse(expression: string): Result<Node, ParseError>
  {
    match ParseExpr(Tokenize(expression), 0)
    case Ok((node, _)) => Ok(node)
    case Err(e) => Err(e)
  }

  // ---------------------------------------------------------------------
  // Evaluation of a compiled expression

  /** A `compare` operation sent to the reporter. Its `desc` text is kept as its parts. */
  datatype Report = Report(op: Operator, left: Value, right: Value, result: bool)

  /** The result of an evaluation, and the reports it sent, in order. */
  datatype Outcome = Outcome(value: Value, reports: seq<Report>)

  /** A report as the value `{type, desc, result}` the reporter receives. */
  function ReportValue(r: Report): Value
  {
    Obj(map["type" := Str("compare"), "desc" := ReportDescription(r), "result" := Bool(r.result)])
  }

  /** The description of a comparison: both operands and the operator's legend. */
  function ReportDescription(r: Report): Value
  {
    Obj(map["left" := r.left, "operator" := Str(Legend(r.op)), "right" := r.right])
  }

  /** applyTypeHint: `#` gives Number(v), `$` String(v), `!` Boolean(v) except that "false" is false. */
  function ApplyTypeHint(hint: Option<TypeHint>, v: Value): Value
  {
    match hint
    case None => v
    case Some(NumberHint) => Js.ToNumber(v)
    case Some(StringHint) => Str(Js.ToStr(v))
    case Some(BooleanHint) => if v == Str("false") then Bool(false) else Bool(Js.Truthy(v))
  }

  /** applyComparison with JavaScript's `===`, `!==`, `>`, `<`, `>=` and `<=`. */
  predicate ApplyComparison(l: Value, r: Value, op: Operator)
  {
    match op
    case Eq => Js.StrictEquals(l, r)
    case Ne => !Js.StrictEquals(l, r)
    case Gt => Js.Gt(l, r)
    case Lt => Js.Lt(l, r)
    case Ge => Js.Ge(l, r)
    case Le => Js.Le(l, r)
  }

  /** The walk of a context path: undefined as soon as a value on the way is null or undefined. */
  function ResolveContextPath(v: Value, path: seq<string>): Option<Value>
    decreases |path|
  {
    if |path| == 0 then Some(v)
    else if Js.IsNullish(v) then None
    else ResolveContextPath(Js.Get(v, path[0]), path[1..])
  }

  /**
   * `compile(ast)(input, bindings, reporter)`; `reporter` says whether a
   * reporter was supplied. The two sides of a comparison are evaluated
   * without the reporter.
   */
  function Eval(n: Node, input: Value, bindings: map<string, Value>, reporter: bool): Outcome
    decreases n, 0
  {
    match n
    case Literal(v) => Outcome(v, [])
    case ContextRef(name, hint) => Outcome(ApplyTypeHint(hint, Js.Get(Obj(bindings), name)), [])
    case ContextPathRef(path, hint) =>
      (match ResolveContextPath(Obj(bindings), path)
       case None => Outcome(Undefined, [])
       case Some(v) => Outcome(ApplyTypeHint(hint, v), []))
    case PropertyPath(segments) => EvalSegments(segments, input, bindings, reporter)
    case Comparison(op, left, right) =>
      var l := Eval(left, input, bindings, false).value;
      var r := Eval(right, input, bindings, false).value;
      var result := ApplyComparison(l, r, op);
      Outcome(Bool(result), if reporter then [Report(op, l, r, result)] else [])
  }

  /** The segment functions applied in turn; a null or undefined value ends the walk with undefined. */
  function EvalSegments(segments: seq<Segment>, v: Value, bindings: map<string, Value>, reporter: bool): Outcome
    decreases segments
  {
    if |segments| == 0 then Outcome(v, [])
    else
      var first := EvalSegment(segments[0], v, bindings, reporter);
      if Js.IsNullish(first.value) then Outcome(Undefined, first.reports)
      else
        var rest := EvalSegments(segments[1..], first.value, bindings, reporter);
        Outcome(rest.value, first.reports + rest.reports)
  }

  /** compileSegment: `input?.[name]`, or the first element of the array there that passes the filter. */
  function EvalSegment(segment: Segment, v: Value, bindings: map<string, Value>, reporter: bool): Outcome
    decreases segment
  {
    match segment
    case Property(name) => Outcome(Js.Get(v, name), [])
    case Filtered(name, filter) =>
      var list := Js.Get(v, name);
      if list.Arr? then Find(list.items, filter, bindings, reporter) else Outcome(Undefined, [])
  }

  /** `list.find(item => filter(item, bindings, reporter))`. */
  function Find(items: seq<Value>, filter: Node, bindings: map<string, Value>, reporter: bool): Outcome
    decreases filter, 1, items
  {
    if |items| == 0 then Outcome(Undefined, [])
    else
      var test := Eval(filter, items[0], bindings, reporter);
      if Js.Truthy(test.value) then Outcome(items[0], test.reports)
      else
        var rest := Find(items[1..], filter, bindings, reporter);
        Outcome(rest.value, test.reports + rest.reports)
  }
}
