/**
 * The parts of JavaScript semantics the core relies on, over `Values.Value`:
 * truthiness, `== null`, `typeof`, property access, `String(v)`, `Number(v)`,
 * strict equality and the relational operators, and own-property spreading
 * (`{...v}` / `Object.assign({}, v)`).
 */
module Js {
  import opened Wrappers
  import opened Values

  // ---------------------------------------------------------------------
  // Decimal numerals

  predicate IsDigit(c: char) { '0' <= c <= '9' }

  predicate AllDigits(s: string) { forall i :: 0 <= i < |s| ==> IsDigit(s[i]) }

  /** A numeral without superfluous leading zeros, as `String(n)` prints it. */
  predicate IsCanonicalNat(s: string)
  {
    |s| > 0 && AllDigits(s) && (s[0] != '0' || |s| == 1)
  }

  function DigitValue(c: char): nat
    requires IsDigit(c)
  {
    c as int - '0' as int
  }

  function DigitChar(d: nat): (c: char)
    requires d < 10
    ensures IsDigit(c) && DigitValue(c) == d
  {
    ('0' as int + d) as char
  }

  /** The value of a run of decimal digits, as `parseInt(s, 10)` reads it. */
  function DigitsValue(s: string): nat
    requires AllDigits(s)
  {
    if |s| == 0 then 0 else 10 * DigitsValue(s[..|s| - 1]) + DigitValue(s[|s| - 1])
  }

  /** `String(n)` for a natural number. */
  function NatToString(n: nat): (s: string)
    ensures IsCanonicalNat(s)
    ensures DigitsValue(s) == n
  {
    if n < 10 then [DigitChar(n)]
    else
      var p := NatToString(n / 10);
      assert (p + [DigitChar(n % 10)])[..|p|] == p;
      p + [DigitChar(n % 10)]
  }

  lemma {:induction false} CanonicalLeadingDigitPositive(s: string)
    requires IsCanonicalNat(s) && s[0] != '0'
    ensures DigitsValue(s) >= 1
    decreases |s|
  {
    if |s| > 1 {
      var p := s[..|s| - 1];
      assert IsCanonicalNat(p) && p[0] == s[0];
      CanonicalLeadingDigitPositive(p);
    }
  }

  /** Reading a canonical numeral and printing the number gives the numeral back. */
  lemma {:induction false} NatToStringOfDigits(s: string)
    requires IsCanonicalNat(s)
    ensures NatToString(DigitsValue(s)) == s
    decreases |s|
  {
    if |s| > 1 {
      var p := s[..|s| - 1];
      assert IsCanonicalNat(p) && p[0] == s[0];
      CanonicalLeadingDigitPositive(p);
      NatToStringOfDigits(p);
      var n := DigitsValue(s);
      assert n / 10 == DigitsValue(p) && n % 10 == DigitValue(s[|s| - 1]);
      assert s == p + [s[|s| - 1]];
    }
  }

  /** `String(n)` for an integer. */
  function IntToString(n: int): string
  {
    if n < 0 then "-" + NatToString(-n) else NatToString(n)
  }

  /**
   * The integer a property key denotes when it is the canonical spelling of
   * one: JavaScript stores `obj[404]` under the key "404", so a lookup with
   * any value first turns it into a string.
   */
  function IntKey(s: string): Option<int>
  {
    if IsCanonicalNat(s) then Some(DigitsValue(s))
    else if |s| >= 2 && s[0] == '-' && IsCanonicalNat(s[1..]) && s[1..] != "0" then
      Some(-(DigitsValue(s[1..]) as int))
    else None
  }

  lemma IntKeyOfIntToString(n: int)
    ensures IntKey(IntToString(n)) == Some(n)
  {
    if n < 0 {
      var t := NatToString(-n);
      assert ("-" + t)[1..] == t;
    }
  }

  /** A key names the integer `n` exactly when it is `String(n)`. */
  lemma IntKeyIff(s: string, n: int)
    ensures IntKey(s) == Some(n) <==> s == IntToString(n)
  {
    if s == IntToString(n) {
      IntKeyOfIntToString(n);
    }
    if IntKey(s) == Some(n) {
      if IsCanonicalNat(s) {
        NatToStringOfDigits(s);
      } else {
        NatToStringOfDigits(s[1..]);
        assert s == "-" + s[1..];
        CanonicalLeadingDigitPositive(s[1..]);
      }
    }
  }

  // ---------------------------------------------------------------------
  // Type tests and coercions

  /** `v == null`. */
  predicate IsNullish(v: Value) { v.Undefined? || v.Null? }

  /** `Boolean(v)`: the falsy values are undefined, null, false, 0, NaN and "". */
  predicate Truthy(v: Value)
  {
    match v
    case Undefined => false
    case Null => false
    case Bool(b) => b
    case Num(n) => n != 0
    case NaN => false
    case Str(s) => s != ""
    case _ => true
  }

  /** `typeof v`. */
  function TypeOf(v: Value): string
  {
    match v
    case Undefined => "undefined"
    case Bool(_) => "boolean"
    case Num(_) => "number"
    case NaN => "number"
    case Str(_) => "string"
    case _ => "object"
  }

  /** `String(v)`; an array joins its elements with "," and prints null and undefined as "". */
  function ToStr(v: Value): string
  {
    match v
    case Undefined => "undefined"
    case Null => "null"
    case Bool(b) => if b then "true" else "false"
    case Num(n) => IntToString(n)
    case NaN => "NaN"
    case Str(s) => s
    case Arr(items) => JoinItems(items)
    case Obj(_) => "[object Object]"
    case ErrorVal(e) => if e.message == "" then "HodrError" else "HodrError: " + e.message
  }

  /** `items.join(",")`. */
  function JoinItems(items: seq<Value>): string
    decreases items
  {
    if |items| == 0 then ""
    else
      var first := if IsNullish(items[0]) then "" else ToStr(items[0]);
      if |items| == 1 then first else first + "," + JoinItems(items[1..])
  }

  /** The white space and line terminators `Number(s)` trims. */
  predicate IsJsSpace(c: char)
  {
    c == ' ' || c == '\t' || c == '\n' || c == '\r' || c == '\U{000B}' || c == '\U{000C}'
    || c == '\U{00A0}' || c == '\U{FEFF}' || c == '\U{1680}' || ('\U{2000}' <= c <= '\U{200A}')
    || c == '\U{2028}' || c == '\U{2029}' || c == '\U{202F}' || c == '\U{205F}' || c == '\U{3000}'
  }

  function TrimStart(s: string): (t: string)
    ensures |t| <= |s|
    ensures |t| > 0 ==> !IsJsSpace(t[0])
  {
    if |s| > 0 && IsJsSpace(s[0]) then TrimStart(s[1..]) else s
  }

  function TrimEnd(s: string): (t: string)
    ensures |t| <= |s|
    ensures |t| > 0 ==> !IsJsSpace(t[|t| - 1])
  {
    if |s| > 0 && IsJsSpace(s[|s| - 1]) then TrimEnd(s[..|s| - 1]) else s
  }

  /** `Number(s)` for a string holding an optionally signed decimal integer. */
  function StringToNumber(s: string): Value
  {
    var t := TrimEnd(TrimStart(s));
    if t == "" then Num(0)
    else if AllDigits(t) then Num(DigitsValue(t))
    else if |t| > 1 && t[0] == '-' && AllDigits(t[1..]) then Num(-(DigitsValue(t[1..]) as int))
    else if |t| > 1 && t[0] == '+' && AllDigits(t[1..]) then Num(DigitsValue(t[1..]))
    else NaN
  }

  /** `Number(v)`: objects go through their string form first. */
  function ToNumber(v: Value): (r: Value)
    ensures r.Num? || r.NaN?
  {
    match v
    case Undefined => NaN
    case Null => Num(0)
    case Bool(b) => Num(if b then 1 else 0)
    case Num(n) => Num(n)
    case NaN => NaN
    case Str(s) => StringToNumber(s)
    case _ => StringToNumber(ToStr(v))
  }

  /** ToPrimitive: arrays, objects and errors become their string form. */
  function ToPrimitive(v: Value): Value
  {
    if v.Arr? || v.Obj? || v.ErrorVal? then Str(ToStr(v)) else v
  }

  // ---------------------------------------------------------------------
  // Property access

  /** The array index a property key denotes, if it denotes one. */
  function IndexKey(key: string): Option<nat>
  {
    if IsCanonicalNat(key) then Some(DigitsValue(key)) else None
  }

  /**
   * `v?.[key]`: own data of objects, arrays and strings (including `length`)
   * and the fields of a HodrError. Methods inherited from prototypes are not
   * modelled and read as undefined.
   */
  function Get(v: Value, key: string): Value
  {
    match v
    case Obj(m) => if key in m then m[key] else Undefined
    case Arr(items) =>
      if key == "length" then Num(|items|)
      else (match IndexKey(key)
            case Some(i) => if i < |items| then items[i] else Undefined
            case None => Undefined)
    case Str(s) =>
      if key == "length" then Num(|s|)
      else (match IndexKey(key)
            case Some(i) => if i < |s| then Str([s[i]]) else Undefined
            case None => Undefined)
    case ErrorVal(e) =>
      if key == "message" then Str(e.message)
      else if key == "name" then Str("HodrError")
      else if key == "code" then Str(e.code)
      else if key == "contextual" then Obj(e.contextual)
      else if key == "detail" then e.detail
      else if key == "cause" then e.cause
      else Undefined
    case _ => Undefined
  }

  /** The own enumerable properties of `v`, as `{...v}` and `Object.assign({}, v)` copy them. */
  function OwnProperties(v: Value): map<string, Value>
  {
    match v
    case Obj(m) => m
    case Arr(items) => IndexedProperties(items, |items|)
    case Str(s) => IndexedProperties(seq(|s|, i requires 0 <= i < |s| => Str([s[i]])), |s|)
    case ErrorVal(e) =>
      map["contextual" := Obj(e.contextual), "code" := Str(e.code), "detail" := e.detail,
          "cause" := e.cause, "name" := Str("HodrError")]
    case _ => map[]
  }

  /** The index-keyed properties "0" .. "n-1" of a sequence. */
  function IndexedProperties(items: seq<Value>, n: nat): (m: map<string, Value>)
    requires n <= |items|
    ensures forall i :: 0 <= i < n ==> NatToString(i) in m && m[NatToString(i)] == items[i]
    ensures forall k :: k in m ==> IndexKey(k).Some? && IndexKey(k).value < n
  {
    if n == 0 then map[]
    else
      var m := IndexedProperties(items, n - 1);
      forall i | 0 <= i < n - 1
        ensures NatToString(i) != NatToString(n - 1)
      {
        assert DigitsValue(NatToString(i)) != DigitsValue(NatToString(n - 1));
      }
      m[NatToString(n - 1) := items[n - 1]]
  }

  // ---------------------------------------------------------------------
  // Comparison

  /** `a === b`. NaN equals nothing; arrays and objects compare by contents, where
   *  JavaScript compares identity. */
  predicate StrictEquals(a: Value, b: Value)
  {
    !a.NaN? && a == b
  }

  /** Lexicographic order of strings by character. */
  predicate StrLess(a: string, b: string)
  {
    if |a| == 0 then |b| > 0
    else if |b| == 0 then false
    else if a[0] != b[0] then a[0] < b[0]
    else StrLess(a[1..], b[1..])
  }

  /**
   * The abstract relational comparison `a < b`: `None` is the "undefined"
   * outcome a NaN operand produces, which makes every relational operator false.
   */
  function LessThan(a: Value, b: Value): Option<bool>
  {
    var pa := ToPrimitive(a);
    var pb := ToPrimitive(b);
    if pa.Str? && pb.Str? then Some(StrLess(pa.s, pb.s))
    else
      var na := ToNumber(pa);
      var nb := ToNumber(pb);
      if na.NaN? || nb.NaN? then None else Some(na.n < nb.n)
  }

  predicate Lt(a: Value, b: Value) { LessThan(a, b) == Some(true) }
  predicate Gt(a: Value, b: Value) { LessThan(b, a) == Some(true) }
  predicate Le(a: Value, b: Value) { LessThan(b, a) == Some(false) }
  predicate Ge(a: Value, b: Value) { LessThan(a, b) == Some(false) }

  /** On numbers the relational operators are the integer order. */
  lemma NumberComparisons(x: int, y: int)
    ensures Lt(Num(x), Num(y)) <==> x < y
    ensures Gt(Num(x), Num(y)) <==> x > y
    ensures Le(Num(x), Num(y)) <==> x <= y
    ensures Ge(Num(x), Num(y)) <==> x >= y
  {
  }

  /** A NaN operand makes every relational operator false. */
  lemma NaNComparisons(v: Value)
    ensures !Lt(NaN, v) && !Gt(NaN, v) && !Le(NaN, v) && !Ge(NaN, v)
    ensures !Lt(v, NaN) && !Gt(v, NaN) && !Le(v, NaN) && !Ge(v, NaN)
  {
  }
}
