/**
 * The behaviour core/test/engine/object-path.test.ts describes, as lemmas:
 * the four test expressions parse to the expected syntax trees, and the
 * compiled expressions select what the tests expect.
 */
module ObjectPathExamples {
  import opened Wrappers
  import opened Values
  import opened ObjectPath
  import opened ObjectPathProperties
  import Js

  // ---------------------------------------------------------------------
  // "body.comments"

  const BodyComments := PropertyPath([Property("body"), Property("comments")])

  lemma TokensOfBodyComments(e: string)
    requires e == "body.comments"
    ensures Tokenize(e) == ["body", ".", "comments"]
  {
    var tokens := ["body", ".", "comments"];
    assert Concat(tokens) == e by {
      assert Concat(tokens[1..]) == ".comments";
    }
    BodyCommentsDelimited(tokens);
    TokenizeConcat(tokens);
  }

  lemma BodyCommentsDelimited(tokens: seq<string>)
    requires tokens == ["body", ".", "comments"]
    ensures WellDelimited(tokens)
  {
    assert IsIdentifier("body") && IsIdentifier("comments");
  }

  lemma ParseOfBodyCommentsTokens(tokens: seq<string>)
    requires tokens == ["body", ".", "comments"]
    ensures ParseExpr(tokens, 0) == Ok((BodyComments, 3))
  {
    assert ParseSegment(tokens, 0) == Ok((Property("body"), 1));
    assert ParseSegment(tokens, 2) == Ok((Property("comments"), 3));
    assert TokenAt(tokens, 1) == Some(".") && TokenAt(tokens, 3) == None;
    assert [] + [Property("body")] == [Property("body")];
    assert [Property("body")] + [Property("comments")] == [Property("body"), Property("comments")];
    assert PathLoop(tokens, 2, [Property("body")]) == Ok((BodyComments, 3));
  }

  lemma ParsesBodyComments(e: string)
    requires e == "body.comments"
    ensures Parse(e) == Ok(BodyComments)
  {
    TokensOfBodyComments(e);
    ParseOfBodyCommentsTokens(Tokenize(e));
  }

  /** Dot notation reaches the nested array. */
  lemma SelectsBodyComments(comments: Value, bindings: map<string, Value>, reporter: bool)
    requires !Js.IsNullish(comments)
    ensures Eval(BodyComments, Obj(map["body" := Obj(map["comments" := comments])]), bindings, reporter)
      == Outcome(comments, [])
  {
    var input := Obj(map["body" := Obj(map["comments" := comments])]);
    var segments := BodyComments.segments;
    assert segments[1..] == [Property("comments")];
    assert EvalSegments(segments[1..], Obj(map["comments" := comments]), bindings, reporter) == Outcome(comments, []);
  }

  // ---------------------------------------------------------------------
  // "comments.length>0"

  const LengthCheck := Comparison(Gt, PropertyPath([Property("comments"), Property("length")]), Literal(Num(0)))

  lemma TokensOfLengthCheck(e: string)
    requires e == "comments.length>0"
    ensures Tokenize(e) == ["comments", ".", "length", ">", "0"]
  {
    var tokens := ["comments", ".", "length", ">", "0"];
    LengthCheckConcat(tokens, e);
    LengthCheckDelimited(tokens);
    TokenizeConcat(tokens);
  }

  lemma LengthCheckConcat(tokens: seq<string>, e: string)
    requires tokens == ["comments", ".", "length", ">", "0"] && e == "comments.length>0"
    ensures Concat(tokens) == e
  {
    assert Concat(tokens[4..]) == "0";
    assert Concat(tokens[3..]) == ">0";
    assert Concat(tokens[2..]) == "length>0";
    assert Concat(tokens[1..]) == ".length>0";
  }

  lemma LengthCheckDelimited(tokens: seq<string>)
    requires tokens == ["comments", ".", "length", ">", "0"]
    ensures WellDelimited(tokens)
  {
    assert IsIdentifier("comments") && IsIdentifier("length") && IsDigitRun("0");
  }

  lemma ParseOfLengthCheckTokens(tokens: seq<string>)
    requires tokens == ["comments", ".", "length", ">", "0"]
    ensures ParseExpr(tokens, 0) == Ok((LengthCheck, 5))
  {
    var path := PropertyPath([Property("comments"), Property("length")]);
    assert ParseSegment(tokens, 0) == Ok((Property("comments"), 1));
    assert ParseSegment(tokens, 2) == Ok((Property("length"), 3));
    assert TokenAt(tokens, 1) == Some(".") && TokenAt(tokens, 3) == Some(">");
    assert [] + [Property("comments")] == [Property("comments")];
    assert [Property("comments")] + [Property("length")] == path.segments;
    assert PathLoop(tokens, 2, [Property("comments")]) == Ok((path, 3));
    assert Js.DigitsValue("0") == 0;
    assert ParseValue(tokens, 4) == (Literal(Num(0)), 5);
  }

  lemma ParsesLengthCheck(e: string)
    requires e == "comments.length>0"
    ensures Parse(e) == Ok(LengthCheck)
  {
    TokensOfLengthCheck(e);
    ParseOfLengthCheckTokens(Tokenize(e));
  }

  /** The comparison holds exactly when the array has elements. */
  lemma LengthCheckHoldsForNonEmpty(items: seq<Value>, bindings: map<string, Value>, reporter: bool)
    ensures Eval(LengthCheck, Obj(map["comments" := Arr(items)]), bindings, reporter).value == Bool(|items| > 0)
  {
    var input := Obj(map["comments" := Arr(items)]);
    var path := LengthCheck.left;
    assert path.segments[1..] == [Property("length")];
    assert EvalSegments(path.segments[1..], Arr(items), bindings, false) == Outcome(Num(|items|), []);
    assert Eval(path, input, bindings, false).value == Num(|items|);
    Js.NumberComparisons(|items|, 0);
  }

  // ---------------------------------------------------------------------
  // "comments[id=commentId]" and "comments[id=#commentId]"

  function Comment(id: int, text: string): Value
  {
    Obj(map["id" := Num(id), "comment" := Str(text)])
  }

  const Comments: Value := Obj(map["comments" := Arr([Comment(523, "Hehu!"), Comment(655, "Nah!")])])

  function ById(hint: Option<TypeHint>): Node
  {
    PropertyPath([Filtered("comments", Comparison(Eq, PropertyPath([Property("id")]), ContextPathRef(["commentId"], hint)))])
  }

  lemma TokensOfById(e: string)
    requires e == "comments[id=commentId]"
    ensures Tokenize(e) == ["comments", "[", "id", "=", "commentId", "]"]
  {
    var tokens := ["comments", "[", "id", "=", "commentId", "]"];
    ByIdConcat(tokens, "commentId", e);
    ByIdDelimited(tokens, "commentId");
    TokenizeConcat(tokens);
  }

  lemma ByIdConcat(tokens: seq<string>, reference: string, e: string)
    requires tokens == ["comments", "[", "id", "=", reference, "]"]
    requires (reference == "commentId" && e == "comments[id=commentId]")
          || (reference == "#commentId" && e == "comments[id=#commentId]")
    ensures Concat(tokens) == e
  {
    assert Concat(tokens[5..]) == "]";
    assert Concat(tokens[4..]) == reference + "]";
    assert Concat(tokens[2..]) == "id=" + reference + "]";
  }

  lemma ByIdDelimited(tokens: seq<string>, reference: string)
    requires tokens == ["comments", "[", "id", "=", reference, "]"]
    requires reference == "commentId" || reference == "#commentId"
    ensures WellDelimited(tokens)
  {
    assert IsIdentifier("commentId");
    assert "#commentId"[1..] == "commentId";
    assert Lexeme(reference);
  }

  lemma TokensOfByHintedId(e: string)
    requires e == "comments[id=#commentId]"
    ensures Tokenize(e) == ["comments", "[", "id", "=", "#commentId", "]"]
  {
    var tokens := ["comments", "[", "id", "=", "#commentId", "]"];
    ByIdConcat(tokens, "#commentId", e);
    ByIdDelimited(tokens, "#commentId");
    TokenizeConcat(tokens);
  }

  lemma ParseOfByIdTokens(tokens: seq<string>, reference: string, hint: Option<TypeHint>)
    requires tokens == ["comments", "[", "id", "=", reference, "]"]
    requires (reference == "commentId" && hint == None) || (reference == "#commentId" && hint == Some(NumberHint))
    ensures ParseExpr(tokens, 0) == Ok((ById(hint), 6))
  {
    assert reference[|reference| - 9..] == "commentId";
    assert NameOf(reference) == "commentId" && HintOf(reference) == hint;
    assert ParseValue(tokens, 4) == (ContextPathRef(["commentId"], hint), 5);
    assert TokenAt(tokens, 3) == Some("=");
    assert [] + [Property("id")] == [Property("id")];
    assert PathLoop(tokens, 2, []) == Ok((PropertyPath([Property("id")]), 3));
    var filter := ById(hint).segments[0];
    assert ParseSegment(tokens, 0) == Ok((filter, 6));
    assert [] + [filter] == [filter];
  }

  lemma ParsesById(e: string)
    requires e == "comments[id=commentId]"
    ensures Parse(e) == Ok(ById(None))
  {
    TokensOfById(e);
    ParseOfByIdTokens(Tokenize(e), "commentId", None);
  }

  lemma ParsesByHintedId(e: string)
    requires e == "comments[id=#commentId]"
    ensures Parse(e) == Ok(ById(Some(NumberHint)))
  {
    TokensOfByHintedId(e);
    ParseOfByIdTokens(Tokenize(e), "#commentId", Some(NumberHint));
  }

  /** The filter compares each comment's id with the binding, after the hint has coerced it. */
  lemma FilterTest(item: Value, key: Value, hint: Option<TypeHint>, id: int, reporter: bool)
    requires item == Comment(523, "Hehu!") || item == Comment(655, "Nah!")
    requires ApplyTypeHint(hint, key) == Num(id)
    ensures Passes(ById(hint).segments[0].filter, item, map["commentId" := key], reporter) <==> item.fields["id"] == Num(id)
  {
    var bindings := map["commentId" := key];
    var filter := ById(hint).segments[0].filter;
    assert Eval(filter.left, item, bindings, false).value == item.fields["id"];
    assert ResolveContextPath(Obj(bindings), ["commentId"]) == Some(key) by {
      assert ResolveContextPath(Js.Get(Obj(bindings), "commentId"), []) == Some(key);
    }
    assert Eval(filter.right, item, bindings, false).value == Num(id);
  }

  /** Selecting by a binding finds the comment with that id, and nothing when there is none. */
  lemma SelectsById(key: Value, hint: Option<TypeHint>, id: int, reporter: bool)
    requires ApplyTypeHint(hint, key) == Num(id)
    ensures Eval(ById(hint), Comments, map["commentId" := key], reporter).value
      == if id == 523 then Comment(523, "Hehu!") else if id == 655 then Comment(655, "Nah!") else Undefined
  {
    var bindings := map["commentId" := key];
    var node := ById(hint);
    var filter := node.segments[0].filter;
    FilterTest(Comment(523, "Hehu!"), key, hint, id, reporter);
    FilterTest(Comment(655, "Nah!"), key, hint, id, reporter);
    SearchTwo(Comment(523, "Hehu!"), Comment(655, "Nah!"), filter, bindings, reporter);
    assert EvalSegment(node.segments[0], Comments, bindings, reporter)
      == Find([Comment(523, "Hehu!"), Comment(655, "Nah!")], filter, bindings, reporter);
    assert node.segments[1..] == [];
  }

  /** `find` over two elements. */
  lemma SearchTwo(a: Value, b: Value, filter: Node, bindings: map<string, Value>, reporter: bool)
    ensures Find([a, b], filter, bindings, reporter).value
      == if Passes(filter, a, bindings, reporter) then a
         else if Passes(filter, b, bindings, reporter) then b
         else Undefined
  {
    assert [a, b][1..] == [b] && [b][1..] == [];
    if !Passes(filter, a, bindings, reporter) {
      assert Find([a, b], filter, bindings, reporter).value == Find([b], filter, bindings, reporter).value;
      if !Passes(filter, b, bindings, reporter) {
        assert Find([b], filter, bindings, reporter).value == Find([], filter, bindings, reporter).value;
      }
    }
  }

  /** The tests' bindings: a number compared as it is. */
  lemma SelectsByNumberAsTested(reporter: bool)
    ensures Eval(ById(None), Comments, map["commentId" := Num(655)], reporter).value == Comment(655, "Nah!")
    ensures Eval(ById(None), Comments, map["commentId" := Num(523)], reporter).value == Comment(523, "Hehu!")
    ensures !Js.Truthy(Eval(ById(None), Comments, map["commentId" := Num(123)], reporter).value)
  {
    SelectsById(Num(655), None, 655, reporter);
    SelectsById(Num(523), None, 523, reporter);
    SelectsById(Num(123), None, 123, reporter);
  }

  /** A numeral bound to the name is read as a number through the `#` hint. */
  lemma SelectsByNumeral(numeral: string, id: nat, reporter: bool)
    requires IsDigitRun(numeral) && Js.DigitsValue(numeral) == id
    ensures Eval(ById(Some(NumberHint)), Comments, map["commentId" := Str(numeral)], reporter).value
      == if id == 523 then Comment(523, "Hehu!") else if id == 655 then Comment(655, "Nah!") else Undefined
  {
    NumberHintReadsDigits(numeral);
    SelectsById(Str(numeral), Some(NumberHint), id, reporter);
  }
}
