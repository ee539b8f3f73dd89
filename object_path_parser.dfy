/**
 * The recursive-descent parser of `parse` (core/src/engine/object-path.ts):
 * a token list and a read index that peek and next advance. Every parsing
 * method is proved to agree with the grammar functions of ObjectPath.
 */
module ObjectPathParser {
  import opened Wrappers
  import opened ObjectPath
  import Values
  import Js

  /** The method's result and final index are the grammar's result and next index. */
  predicate Agrees(r: Result<Node, ParseError>, spec: Parsed<Node>, index: nat)
  {
    match spec
    case Ok((n, k)) => r == Ok(n) && index == k
    case Err(e) => r == Err(e)
  }

  /** The state shared by the nested functions of `parse`. */
  class Parser {
    const tokens: seq<string>
    var index: nat

    constructor (expression: string)
      ensures tokens == Tokenize(expression) && index == 0
    {
      tokens := Tokenize(expression);
      index := 0;
    }

    /** peek(): the token at the read index, undefined past the end. */
    method Peek() returns (t: Option<string>)
      ensures t == TokenAt(tokens, index)
    {
      if index < |tokens| {
        t := Some(tokens[index]);
      } else {
        t := None;
      }
    }

    /** next(): the token at the read index, which then moves on by one. */
    method Next() returns (t: Option<string>)
      modifies this
      ensures t == TokenAt(tokens, old(index)) && index == old(index) + 1
    {
      t := Peek();
      index := index + 1;
    }

    method ParseExpression() returns (r: Result<Node, ParseError>)
      modifies this
      ensures Agrees(r, ParseExpr(tokens, old(index)), index)
      decreases Remaining(tokens, index), 2
    {
      var left := ParsePath();
      if left.Err? {
        return left;
      }
      var op := Peek();
      var operator := if op.Some? then OperatorOf(op.value) else None;
      if operator.Some? {
        var _ := Next();
        var right := ParseValue();
        return Ok(Comparison(operator.value, left.value, right));
      }
      return left;
    }

    method ParsePath() returns (r: Result<Node, ParseError>)
      modifies this
      ensures Agrees(r, PathLoop(tokens, old(index), []), index)
      decreases Remaining(tokens, index), 1
    {
      var segments: seq<Segment> := [];
      ghost var start := index;
      while true
        invariant start <= index
        invariant PathLoop(tokens, start, []) == PathLoop(tokens, index, segments)
        decreases Remaining(tokens, index)
      {
        var segment := ParseSegment();
        if segment.Err? {
          return Err(segment.error);
        }
        segments := segments + [segment.value];
        var p := Peek();
        if p != Some(".") {
          return Ok(PropertyPath(segments));
        }
        var _ := Next();
      }
    }

    /** The body of parsePath's loop: an identifier, and the filter when `[` follows it. */
    method ParseSegment() returns (r: Result<Segment, ParseError>)
      modifies this
      ensures match ObjectPath.ParseSegment(tokens, old(index))
              case Ok((seg, k)) => r == Ok(seg) && index == k
              case Err(e) => r == Err(e)
      decreases Remaining(tokens, index), 0
    {
      var ident := Next();
      if ident.None? {
        return Err(MissingIdentifier);
      }
      if !IsIdentifier(ident.value) {
        return Err(InvalidIdentifier(ident.value));
      }
      var p := Peek();
      if p != Some("[") {
        return Ok(Property(ident.value));
      }
      var _ := Next();
      var filter := ParseExpression();
      if filter.Err? {
        return Err(filter.error);
      }
      var close := Next();
      if close != Some("]") {
        return Err(ExpectedCloseBracket);
      }
      return Ok(Filtered(ident.value, filter.value));
    }

    method ParseValue() returns (n: Node)
      modifies this
      ensures (n, index) == ObjectPath.ParseValue(tokens, old(index))
    {
      var next := Next();
      var tok := if next.Some? then next.value else "undefined";
      if LooksLikeReference(tok) {
        n := ParseContextPath(tok);
      } else if IsDigitRun(tok) {
        n := Literal(Values.Num(Js.DigitsValue(tok)));
      } else if IsQuotedLiteral(tok) {
        n := Literal(Values.Str(tok[1..|tok| - 1]));
      } else {
        n := ContextRef(tok, None);
      }
    }

    method ParseContextPath(base: string) returns (n: Node)
      modifies this
      ensures (n, index) == ContextPathLoop(tokens, old(index), [NameOf(base)], HintOf(base))
    {
      var hint: Option<TypeHint> := None;
      var name := base;
      if |base| > 0 && base[0] == '#' {
        hint, name := Some(NumberHint), base[1..];
      } else if |base| > 0 && base[0] == '!' {
        hint, name := Some(BooleanHint), base[1..];
      } else if |base| > 0 && base[0] == '$' {
        hint, name := Some(StringHint), base[1..];
      }
      var segments := [name];
      ghost var start := index;
      var p := Peek();
      while p == Some(".")
        invariant p == TokenAt(tokens, index)
        invariant ContextPathLoop(tokens, start, [NameOf(base)], HintOf(base)) == ContextPathLoop(tokens, index, segments, hint)
        decreases Remaining(tokens, index)
      {
        var _ := Next();
        var key := Next();
        segments := segments + [if key.Some? then key.value else "undefined"];
        p := Peek();
      }
      n := ContextPathRef(segments, hint);
    }
  }

  /** parse(expression): tokenize, then parse one expression from the first token. */
  method Parse(expression: string) returns (r: Result<Node, ParseError>)
    ensures r == ObjectPath.Parse(expression)
  {
    var parser := new Parser(expression);
    r := parser.ParseExpression();
  }
}
