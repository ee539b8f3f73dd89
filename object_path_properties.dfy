/**
 * What the object-path language promises
 * (core/src/engine/object-path.ts, core/test/engine/object-path.test.ts):
 * how the tokenizer splits an expression, what the parser builds and
 * rejects, and what evaluation returns and reports.
 */
module ObjectPathProperties {
  import opened Wrappers
  import opened Values
  import opened ObjectPath
  import Js

  // ---------------------------------------------------------------------
  // Tokenizer

  /** A token the expression matches in full at the front is emitted, and tokenizing goes on after it. */
  lemma TokenizeFront(t: string, s: string)
    requires |t| > 0 && TokenLength(t + s) == |t|
    ensures Tokenize(t + s) == [t] + Tokenize(s)
  {
    assert (t + s)[..|t|] == t;
    assert (t + s)[|t|..] == s;
  }

  lemma {:induction false} IdentEndAt(u: string, i: nat, n: nat)
    requires i <= n <= |u|
    requires forall k :: i <= k < n ==> IsIdentChar(u[k])
    requires n == |u| || !IsIdentChar(u[n])
    ensures IdentEnd(u, i) == n
    decreases n - i
  {
    if i < n {
      IdentEndAt(u, i + 1, n);
    }
  }

  lemma {:induction false} DigitsEndAt(u: string, i: nat, n: nat)
    requires i <= n <= |u|
    requires forall k :: i <= k < n ==> Js.IsDigit(u[k])
    requires n == |u| || !Js.IsDigit(u[n])
    ensures DigitsEnd(u, i) == n
    decreases n - i
  {
    if i < n {
      DigitsEndAt(u, i + 1, n);
    }
  }

  /** An identifier that no identifier character follows is one token. */
  lemma TokenizeIdentifier(name: string, s: string)
    requires IsIdentifier(name)
    requires |s| == 0 || !IsIdentChar(s[0])
    ensures Tokenize(name + s) == [name] + Tokenize(s)
  {
    var u := name + s;
    assert forall k :: 1 <= k < |name| ==> u[k] == name[k];
    IdentEndAt(u, 1, |name|);
    TokenizeFront(name, s);
  }

  /** A type prefix glued to an identifier is part of the identifier's token. */
  lemma TokenizeHintedIdentifier(prefix: char, name: string, s: string)
    requires IsHintPrefix(prefix) && IsIdentifier(name)
    requires |s| == 0 || !IsIdentChar(s[0])
    ensures Tokenize([prefix] + name + s) == [[prefix] + name] + Tokenize(s)
  {
    var t := [prefix] + name;
    var u := t + s;
    assert [prefix] + name + s == u;
    assert forall k :: 2 <= k < |t| ==> u[k] == name[k - 1];
    IdentEndAt(u, 2, |t|);
    TokenizeFront(t, s);
  }

  /** A run of digits that no digit follows is one token. */
  lemma TokenizeDigits(digits: string, s: string)
    requires IsDigitRun(digits)
    requires |s| == 0 || !Js.IsDigit(s[0])
    ensures Tokenize(digits + s) == [digits] + Tokenize(s)
  {
    var u := digits + s;
    assert forall k :: 1 <= k < |digits| ==> u[k] == digits[k];
    DigitsEndAt(u, 1, |digits|);
    TokenizeFront(digits, s);
  }

  /** Each comparison operator is one token; a one-character one must not be followed by `=`. */
  lemma TokenizeOperator(op: string, s: string)
    requires OperatorOf(op).Some?
    requires |op| == 1 ==> |s| == 0 || s[0] != '='
    ensures Tokenize(op + s) == [op] + Tokenize(s)
  {
    TokenizeFront(op, s);
  }

  /** `[`, `]` and `.` are tokens of their own. */
  lemma TokenizePunctuation(c: char, s: string)
    requires c == '[' || c == ']' || c == '.'
    ensures Tokenize([c] + s) == [[c]] + Tokenize(s)
  {
    TokenizeFront([c], s);
  }

  /** The characters a token can begin with. */
  predicate CanBeginToken(c: char)
  {
    IsIdentStart(c) || IsHintPrefix(c) || IsOperatorChar(c) || c == DoubleQuote || Js.IsDigit(c)
    || c == '[' || c == ']' || c == '.'
  }

  /** A character no token can begin with, such as a space, is dropped. */
  lemma TokenizeSkips(c: char, s: string)
    requires !CanBeginToken(c)
    ensures Tokenize([c] + s) == Tokenize(s)
  {
    assert ([c] + s)[1..] == s;
  }

  /** White space between tokens does not matter. */
  lemma SpacesAreIgnored(s: string)
    ensures Tokenize(" " + s) == Tokenize(s)
  {
    TokenizeSkips(' ', s);
  }

  /** A string literal without quotes or backslashes inside is one token, quotes included. */
  lemma TokenizeQuoted(body: string, s: string)
    requires forall k :: 0 <= k < |body| ==> body[k] != DoubleQuote && body[k] != Backslash
    ensures Tokenize([DoubleQuote] + body + [DoubleQuote] + s) == [[DoubleQuote] + body + [DoubleQuote]] + Tokenize(s)
  {
    var t := [DoubleQuote] + body + [DoubleQuote];
    var u := t + s;
    assert [DoubleQuote] + body + [DoubleQuote] + s == u;
    assert forall k :: 1 <= k < |body| + 1 ==> u[k] == body[k - 1];
    StringBodyEndAt(u, 1, |body| + 1);
    TokenizeFront(t, s);
  }

  lemma {:induction false} StringBodyEndAt(u: string, i: nat, n: nat)
    requires i <= n < |u| && u[n] == DoubleQuote
    requires forall k :: i <= k < n ==> u[k] != DoubleQuote && u[k] != Backslash
    ensures StringBodyEnd(u, i) == n
    decreases n - i
  {
    if i < n {
      StringBodyEndAt(u, i + 1, n);
    }
  }

  /** An unterminated string literal is not a token: its quote is dropped. */
  lemma UnterminatedQuoteIsIgnored(body: string)
    requires forall k :: 0 <= k < |body| ==> body[k] != DoubleQuote && body[k] != Backslash
    ensures Tokenize([DoubleQuote] + body) == Tokenize(body)
  {
    var u := [DoubleQuote] + body;
    assert forall k :: 1 <= k < |u| ==> u[k] == body[k - 1];
    StringBodyEndAtEnd(u, 1);
    assert u[1..] == body;
  }

  lemma {:induction false} StringBodyEndAtEnd(u: string, i: nat)
    requires i <= |u|
    requires forall k :: i <= k < |u| ==> u[k] != DoubleQuote && u[k] != Backslash
    ensures StringBodyEnd(u, i) == |u|
    decreases |u| - i
  {
    if i < |u| {
      StringBodyEndAtEnd(u, i + 1);
    }
  }

  /** The tokens the tokenizer can produce, string literals aside. */
  predicate Lexeme(t: string)
  {
    IsIdentifier(t) || IsHinted(t) || IsDigitRun(t) || OperatorOf(t).Some? || t == "[" || t == "]" || t == "."
  }

  /** A type prefix followed by an identifier. */
  predicate IsHinted(t: string)
  {
    |t| >= 2 && IsHintPrefix(t[0]) && IsIdentifier(t[1..])
  }

  /** What follows a token does not extend it. */
  predicate Delimited(t: string, next: string)
  {
    |next| == 0 ||
    ((IsIdentifier(t) || IsHinted(t) ==> !IsIdentChar(next[0]))
     && (IsDigitRun(t) ==> !Js.IsDigit(next[0]))
     && (|t| == 1 && OperatorOf(t).Some? ==> next[0] != '='))
  }

  function Concat(tokens: seq<string>): string
  {
    if |tokens| == 0 then "" else tokens[0] + Concat(tokens[1..])
  }

  /** One lexeme in front of a string that does not extend it is tokenized on its own. */
  lemma TokenizeLexeme(t: string, s: string)
    requires Lexeme(t) && Delimited(t, s)
    ensures Tokenize(t + s) == [t] + Tokenize(s)
  {
    if IsIdentifier(t) {
      TokenizeIdentifier(t, s);
    } else if IsHinted(t) {
      TokenizeHintedIdentifier(t[0], t[1..], s);
      assert [t[0]] + t[1..] == t;
    } else if IsDigitRun(t) {
      TokenizeDigits(t, s);
    } else if OperatorOf(t).Some? {
      TokenizeOperator(t, s);
    } else {
      TokenizePunctuation(t[0], s);
      assert [t[0]] == t;
    }
  }

  /** Lexemes, each delimited by the next. */
  predicate WellDelimited(tokens: seq<string>)
  {
    && (forall k :: 0 <= k < |tokens| ==> Lexeme(tokens[k]))
    && (forall k :: 0 <= k < |tokens| - 1 ==> Delimited(tokens[k], tokens[k + 1]))
  }

  /** Tokenizing the concatenation of lexemes, each delimited by the next, gives back the lexemes. */
  lemma {:induction false} TokenizeConcat(tokens: seq<string>)
    requires WellDelimited(tokens)
    ensures Tokenize(Concat(tokens)) == tokens
    decreases |tokens|
  {
    if |tokens| > 0 {
      var rest := tokens[1..];
      assert forall k :: 0 <= k < |rest| ==> rest[k] == tokens[k + 1];
      assert WellDelimited(rest);
      TokenizeConcat(rest);
      if |rest| > 0 {
        assert Delimited(tokens[0], rest[0]);
        assert Concat(rest) == rest[0] + Concat(rest[1..]);
        assert Concat(rest)[0] == rest[0][0];
      }
      TokenizeLexeme(tokens[0], Concat(rest));
    }
  }

  // ---------------------------------------------------------------------
  // Parser

  /** A path must begin with a plain identifier: a type prefix, a number or a quoted string there is an error. */
  lemma RejectsNonIdentifier(tokens: seq<string>, i: nat)
    requires i < |tokens| && !IsIdentifier(tokens[i])
    ensures ParseExpr(tokens, i) == Err(InvalidIdentifier(tokens[i]))
  {
    assert ParseSegment(tokens, i) == Err(InvalidIdentifier(tokens[i]));
    assert PathLoop(tokens, i, []) == Err(InvalidIdentifier(tokens[i]));
  }

  /** An expression with no tokens fails on the identifier it lacks. */
  lemma RejectsEmpty(e: string)
    requires Tokenize(e) == []
    ensures Parse(e) == Err(MissingIdentifier)
  {
  }

  /** A filter whose expression is not followed by `]` is an error. */
  lemma RejectsUnclosedFilter(tokens: seq<string>, i: nat)
    requires i + 1 < |tokens| && IsIdentifier(tokens[i]) && tokens[i + 1] == "["
    requires ParseExpr(tokens, i + 2).Ok? && TokenAt(tokens, ParseExpr(tokens, i + 2).value.1) != Some("]")
    ensures ParseExpr(tokens, i) == Err(ExpectedCloseBracket)
  {
    assert ParseSegment(tokens, i) == Err(ExpectedCloseBracket);
  }

  /** A `.` must be followed by another identifier. */
  lemma RejectsTrailingDot(tokens: seq<string>, i: nat)
    requires i + 1 < |tokens| && IsIdentifier(tokens[i]) && tokens[i + 1] == "." && i + 2 == |tokens|
    ensures ParseExpr(tokens, i) == Err(MissingIdentifier)
  {
    assert ParseSegment(tokens, i) == Ok((Property(tokens[i]), i + 1));
    assert ParseSegment(tokens, i + 2) == Err(MissingIdentifier);
    assert PathLoop(tokens, i + 2, [Property(tokens[i])]) == Err(MissingIdentifier);
    assert PathLoop(tokens, i, []) == Err(MissingIdentifier);
  }

  /** An operator with nothing after it compares with the binding named "undefined". */
  lemma MissingOperandReadsUndefined(tokens: seq<string>, name: string, op: string)
    requires tokens == [name, op] && IsIdentifier(name) && OperatorOf(op).Some?
    ensures ParseExpr(tokens, 0)
      == Ok((Comparison(OperatorOf(op).value, PropertyPath([Property(name)]), ContextPathRef(["undefined"], None)), 3))
  {
    assert ParseSegment(tokens, 0) == Ok((Property(name), 1));
    assert [] + [Property(name)] == [Property(name)];
    assert PathLoop(tokens, 0, []) == Ok((PropertyPath([Property(name)]), 1));
    assert ParseValue(tokens, 2) == (ContextPathRef(["undefined"], None), 3);
  }

  /** The right-hand side of a comparison never reads the input: only literals and bindings. */
  lemma OperandIgnoresInput(tokens: seq<string>, i: nat, x: Value, y: Value, bindings: map<string, Value>, reporter: bool)
    ensures var n := ParseValue(tokens, i).0;
      Eval(n, x, bindings, reporter) == Eval(n, y, bindings, reporter)
  {
    var tok := KeyAt(tokens, i);
    if LooksLikeReference(tok) {
      assert ParseValue(tokens, i).0.ContextPathRef?;
    }
  }

  // ---------------------------------------------------------------------
  // Evaluation

  /** Whether the filter accepts an item. */
  predicate Passes(filter: Node, item: Value, bindings: map<string, Value>, reporter: bool)
  {
    Js.Truthy(Eval(filter, item, bindings, reporter).value)
  }

  /** Element `i` is the first one the filter accepts. */
  predicate FirstPassing(items: seq<Value>, i: nat, filter: Node, bindings: map<string, Value>, reporter: bool)
    requires i < |items|
  {
    Passes(filter, items[i], bindings, reporter)
    && forall j :: 0 <= j < i ==> !Passes(filter, items[j], bindings, reporter)
  }

  /** A filtered segment yields the first element the filter accepts, and undefined when it accepts none. */
  lemma {:induction false} FindIsFirstMatch(items: seq<Value>, filter: Node, bindings: map<string, Value>, reporter: bool)
    ensures (forall j :: 0 <= j < |items| ==> !Passes(filter, items[j], bindings, reporter))
      ==> Find(items, filter, bindings, reporter).value == Undefined
    ensures forall i :: 0 <= i < |items| && FirstPassing(items, i, filter, bindings, reporter) ==>
                Find(items, filter, bindings, reporter).value == items[i]
    decreases |items|
  {
    if |items| > 0 {
      var rest := items[1..];
      FindIsFirstMatch(rest, filter, bindings, reporter);
      assert forall j :: 0 <= j < |rest| ==> rest[j] == items[j + 1];
      if !Passes(filter, items[0], bindings, reporter) {
        forall i | 0 < i < |items| && FirstPassing(items, i, filter, bindings, reporter)
          ensures Find(items, filter, bindings, reporter).value == items[i]
        {
          assert rest[i - 1] == items[i];
          assert FirstPassing(rest, i - 1, filter, bindings, reporter) by {
            forall j | 0 <= j < i - 1 ensures !Passes(filter, rest[j], bindings, reporter) {
              assert rest[j] == items[j + 1];
            }
          }
        }
        if forall j :: 0 <= j < |items| ==> !Passes(filter, items[j], bindings, reporter) {
          assert forall j :: 0 <= j < |rest| ==> !Passes(filter, rest[j], bindings, reporter) by {
            forall j | 0 <= j < |rest| ensures !Passes(filter, rest[j], bindings, reporter) {
              assert rest[j] == items[j + 1];
            }
          }
        }
      }
    }
  }

  /** The segments of a path of plain properties. */
  function Properties(names: seq<string>): seq<Segment>
  {
    if |names| == 0 then [] else [Property(names[0])] + Properties(names[1..])
  }

  /** Reading the properties one after another, with no short cut. */
  function Chain(v: Value, names: seq<string>): Value
    decreases |names|
  {
    if |names| == 0 then v else Chain(Js.Get(v, names[0]), names[1..])
  }

  function NullishAsUndefined(v: Value): Value
  {
    if Js.IsNullish(v) then Undefined else v
  }

  lemma {:induction false} ChainFromNullish(v: Value, names: seq<string>)
    requires Js.IsNullish(v) && |names| > 0
    ensures Chain(v, names) == Undefined
    decreases |names|
  {
    if |names| > 1 {
      ChainFromNullish(Js.Get(v, names[0]), names[1..]);
    }
  }

  /**
   * A path of plain properties reads them one after another and yields
   * undefined, never null, when the value read is null or undefined: the
   * early return on a null or undefined value changes nothing else.
   */
  lemma {:induction false} PropertyPathIsChain(names: seq<string>, v: Value, bindings: map<string, Value>, reporter: bool)
    requires |names| > 0
    ensures Eval(PropertyPath(Properties(names)), v, bindings, reporter) == Outcome(NullishAsUndefined(Chain(v, names)), [])
    decreases |names|
  {
    var segments := Properties(names);
    assert segments[0] == Property(names[0]);
    assert segments[1..] == Properties(names[1..]);
    var w := Js.Get(v, names[0]);
    assert Chain(v, names) == Chain(w, names[1..]);
    assert Eval(PropertyPath(segments), v, bindings, reporter) == EvalSegments(segments, v, bindings, reporter);
    assert EvalSegment(segments[0], v, bindings, reporter) == Outcome(w, []);
    if Js.IsNullish(w) {
      if |names| > 1 {
        ChainFromNullish(w, names[1..]);
      }
    } else if |names| > 1 {
      PropertyPathIsChain(names[1..], w, bindings, reporter);
      var rest := EvalSegments(segments[1..], w, bindings, reporter);
      assert rest == Eval(PropertyPath(Properties(names[1..])), w, bindings, reporter);
      assert rest.reports == [] && [] + rest.reports == [];
    } else {
      assert names[1..] == [];
      assert EvalSegments(segments[1..], w, bindings, reporter) == Outcome(w, []);
    }
  }

  /** With no reporter nothing is reported, and a reporter never changes the value. */
  lemma {:induction false} ReporterNeutral(n: Node, input: Value, bindings: map<string, Value>)
    ensures Eval(n, input, bindings, true).value == Eval(n, input, bindings, false).value
    ensures Eval(n, input, bindings, false).reports == []
    decreases n, 0
  {
    match n
    case PropertyPath(segments) => SegmentsReporterNeutral(segments, input, bindings);
    case _ =>
  }

  lemma {:induction false} SegmentsReporterNeutral(segments: seq<Segment>, v: Value, bindings: map<string, Value>)
    ensures EvalSegments(segments, v, bindings, true).value == EvalSegments(segments, v, bindings, false).value
    ensures EvalSegments(segments, v, bindings, false).reports == []
    decreases segments
  {
    if |segments| > 0 {
      SegmentReporterNeutral(segments[0], v, bindings);
      var first := EvalSegment(segments[0], v, bindings, false);
      if !Js.IsNullish(first.value) {
        SegmentsReporterNeutral(segments[1..], first.value, bindings);
      }
    }
  }

  lemma {:induction false} SegmentReporterNeutral(segment: Segment, v: Value, bindings: map<string, Value>)
    ensures EvalSegment(segment, v, bindings, true).value == EvalSegment(segment, v, bindings, false).value
    ensures EvalSegment(segment, v, bindings, false).reports == []
    decreases segment
  {
    match segment
    case Property(_) =>
    case Filtered(name, filter) =>
      var list := Js.Get(v, name);
      if list.Arr? {
        FindReporterNeutral(list.items, filter, bindings);
      }
  }

  lemma {:induction false} FindReporterNeutral(items: seq<Value>, filter: Node, bindings: map<string, Value>)
    ensures Find(items, filter, bindings, true).value == Find(items, filter, bindings, false).value
    ensures Find(items, filter, bindings, false).reports == []
    decreases filter, 1, items
  {
    if |items| > 0 {
      ReporterNeutral(filter, items[0], bindings);
      FindReporterNeutral(items[1..], filter, bindings);
    }
  }

  /** A comparison yields a boolean and sends the reporter one report: its operands, its operator and its result. */
  lemma ComparisonReportsOnce(op: Operator, left: Node, right: Node, input: Value, bindings: map<string, Value>)
    ensures var o := Eval(Comparison(op, left, right), input, bindings, true);
      && o.value.Bool?
      && |o.reports| == 1
      && o.reports[0] == Report(op, Eval(left, input, bindings, true).value, Eval(right, input, bindings, true).value, o.value.b)
  {
    ReporterNeutral(left, input, bindings);
    ReporterNeutral(right, input, bindings);
  }

  /** How many elements `find` tests before it stops. */
  function Examined(items: seq<Value>, filter: Node, bindings: map<string, Value>): nat
  {
    if |items| == 0 then 0
    else if Passes(filter, items[0], bindings, true) then 1
    else 1 + Examined(items[1..], filter, bindings)
  }

  /** A comparison filter reports once for each element it tests. */
  lemma {:induction false} FilterReportsEachTest(items: seq<Value>, op: Operator, left: Node, right: Node, bindings: map<string, Value>)
    ensures |Find(items, Comparison(op, left, right), bindings, true).reports| == Examined(items, Comparison(op, left, right), bindings)
    decreases |items|
  {
    if |items| > 0 {
      ComparisonReportsOnce(op, left, right, items[0], bindings);
      FindReporterOnce(items, op, left, right, bindings);
    }
  }

  lemma FindReporterOnce(items: seq<Value>, op: Operator, left: Node, right: Node, bindings: map<string, Value>)
    requires |items| > 0
    ensures |Find(items, Comparison(op, left, right), bindings, true).reports| == Examined(items, Comparison(op, left, right), bindings)
    decreases |items|, 0
  {
    var filter := Comparison(op, left, right);
    ComparisonReportsOnce(op, left, right, items[0], bindings);
    if !Passes(filter, items[0], bindings, true) {
      FilterReportsEachTest(items[1..], op, left, right, bindings);
    }
  }

  // ---------------------------------------------------------------------
  // Type hints and comparisons

  /** `#` reads a string of digits as the number it spells. */
  lemma NumberHintReadsDigits(s: string)
    requires IsDigitRun(s)
    ensures ApplyTypeHint(Some(NumberHint), Str(s)) == Num(Js.DigitsValue(s))
  {
    assert Js.TrimStart(s) == s;
    assert Js.TrimEnd(s) == s;
  }

  /** `#` reads a word as NaN. */
  lemma NumberHintRejectsWords(s: string)
    requires |s| > 0 && IsIdentStart(s[0])
    ensures ApplyTypeHint(Some(NumberHint), Str(s)) == NaN
  {
    assert Js.TrimStart(s) == s;
    var t := Js.TrimEnd(s);
    TrimEndKeepsFirst(s);
    assert t[0] == s[0];
  }

  lemma {:induction false} TrimEndKeepsFirst(s: string)
    requires |s| > 0 && !Js.IsJsSpace(s[0])
    ensures |Js.TrimEnd(s)| > 0 && Js.TrimEnd(s)[0] == s[0]
    decreases |s|
  {
    if Js.IsJsSpace(s[|s| - 1]) {
      TrimEndKeepsFirst(s[..|s| - 1]);
    }
  }

  /** `!` yields a boolean: the string "false" and the falsy values are false, every other value true. */
  lemma BooleanHintIsBoolean(v: Value)
    ensures ApplyTypeHint(Some(BooleanHint), v).Bool?
    ensures ApplyTypeHint(Some(BooleanHint), Str("false")) == Bool(false)
    ensures ApplyTypeHint(Some(BooleanHint), Str("true")) == Bool(true)
    ensures ApplyTypeHint(Some(BooleanHint), Str("0")) == Bool(true)
    ensures ApplyTypeHint(Some(BooleanHint), Str("")) == Bool(false)
    ensures ApplyTypeHint(Some(BooleanHint), Num(0)) == Bool(false)
    ensures ApplyTypeHint(Some(BooleanHint), Undefined) == Bool(false)
  {
  }

  /** `$` turns a number into its decimal numeral. */
  lemma StringHintOfNumber(n: int)
    ensures ApplyTypeHint(Some(StringHint), Num(n)) == Str(Js.IntToString(n))
    ensures Js.IntKey(ApplyTypeHint(Some(StringHint), Num(n)).s) == Some(n)
  {
    Js.IntKeyOfIntToString(n);
  }

  /** The meaning of each operator on integers. */
  predicate IntRelation(a: int, b: int, op: Operator)
  {
    match op
    case Eq => a == b
    case Ne => a != b
    case Gt => a > b
    case Lt => a < b
    case Ge => a >= b
    case Le => a <= b
  }

  /** On numbers the operators mean what they mean on integers. */
  lemma NumericComparison(a: int, b: int, op: Operator)
    ensures ApplyComparison(Num(a), Num(b), op) <==> IntRelation(a, b, op)
  {
    Js.NumberComparisons(a, b);
  }

  /** NaN makes every comparison false except `!=`. */
  lemma NaNOperand(x: Value, op: Operator)
    ensures ApplyComparison(x, NaN, op) <==> op == Ne
    ensures ApplyComparison(NaN, x, op) <==> op == Ne
  {
    Js.NaNComparisons(x);
  }

  /** `=` is strict: a number never equals its numeral. */
  lemma EqualityIsStrict(n: int)
    ensures !ApplyComparison(Num(n), Str(Js.IntToString(n)), Eq)
    ensures ApplyComparison(Num(n), Str(Js.IntToString(n)), Ne)
  {
  }
}
