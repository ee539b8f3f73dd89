/**
 * Status matching of core/src/engine/validate.ts: inclusive status ranges,
 * status patterns, and the `validate-http-status` step that lets a response
 * through when its status matches one of the patterns and rejects it with a
 * HodrError otherwise.
 */
module Validate {
  import opened Wrappers
  import opened Values
  import opened Types
  import Js
  import HttpStatus
  import Http

  /** `new HttpStatusRange(from, to)`. */
  datatype HttpStatusRange = HttpStatusRange(from: int, to: int)

  /** An `HttpStatusPattern`: a single status or a range of them. */
  datatype StatusPattern = ExactStatus(status: int) | RangeStatus(range: HttpStatusRange)

  /** `range.includes(status)`: `status >= from && status <= to` under JavaScript's comparisons. */
  predicate Includes(range: HttpStatusRange, status: Value)
  {
    Js.Ge(status, Num(range.from)) && Js.Le(status, Num(range.to))
  }

  /** `matchStatus(status, pattern)`. */
  predicate MatchStatus(status: Value, pattern: StatusPattern)
  {
    match pattern
    case ExactStatus(s) => Js.StrictEquals(status, Num(s))
    case RangeStatus(r) => Includes(r, status)
  }

  /** Some pattern of the list matches the status. */
  predicate Accepted(status: Value, patterns: seq<StatusPattern>)
  {
    exists i :: 0 <= i < |patterns| && MatchStatus(status, patterns[i])
  }

  const MatcherName := "validate-http-status"

  /** The internal code a rejected status reports: its entry in the error table, or 'internal-error'. */
  function RejectionCode(status: Value): string
  {
    match HttpStatus.ErrorCodeAtKey(status)
    case Some(c) => HttpStatus.CodeName(c)
    case None => "internal-error"
  }

  /** The error the matcher throws for a status no pattern matches. */
  function Rejection(status: Value): HodrError
  {
    NewHodrError(
      "Response Status code " + Js.ToStr(status) + " not accepted",
      Some(map["http" := Obj(map["statusCode" := status])]),
      Some(RejectionCode(status)),
      Undefined,
      Undefined)
  }

  /**
   * What the `validate-http-status` step does with a payload: reading the
   * status of null or undefined throws a TypeError; otherwise the payload is
   * passed on or rejected.
   */
  function MatcherOutcome(payload: Value, patterns: seq<StatusPattern>): Result<Value, Thrown>
  {
    if Js.IsNullish(payload) then Err(Http.PropertyOfNullish(payload, "statusCode"))
    else
      var status := Js.Get(payload, "statusCode");
      if Accepted(status, patterns) then Ok(payload) else Err(Throw(Rejection(status)))
  }

  /** The step's `execute`: the patterns are tried in order and the first match returns. */
  method ExecuteMatcher(payload: Value, patterns: seq<StatusPattern>) returns (r: Result<Value, Thrown>)
    ensures r == MatcherOutcome(payload, patterns)
  {
    if Js.IsNullish(payload) {
      return Err(Http.PropertyOfNullish(payload, "statusCode"));
    }
    var status := Js.Get(payload, "statusCode");
    var i := 0;
    while i < |patterns|
      invariant 0 <= i <= |patterns|
      invariant forall j :: 0 <= j < i ==> !MatchStatus(status, patterns[j])
    {
      if MatchStatus(status, patterns[i]) {
        return Ok(payload);
      }
      i := i + 1;
    }
    r := Err(Throw(Rejection(status)));
  }

  // ---------------------------------------------------------------------
  // Properties

  /** A range includes a numeric status exactly when it lies between both ends, inclusive. */
  lemma IncludesBounds(range: HttpStatusRange, status: int)
    ensures Includes(range, Num(status)) <==> range.from <= status <= range.to
  {
    Js.NumberComparisons(status, range.from);
    Js.NumberComparisons(status, range.to);
  }

  /** A numeric pattern matches its own status only; a range pattern matches by inclusion. */
  lemma MatchStatusNumbers(status: int, pattern: StatusPattern)
    ensures pattern.ExactStatus? ==> (MatchStatus(Num(status), pattern) <==> status == pattern.status)
    ensures pattern.RangeStatus? ==>
      (MatchStatus(Num(status), pattern) <==> pattern.range.from <= status <= pattern.range.to)
  {
    if pattern.RangeStatus? {
      IncludesBounds(pattern.range, status);
    }
  }

  /** A missing status (or NaN) matches no pattern, and so is always rejected. */
  lemma MissingStatusRejected(payload: Value, patterns: seq<StatusPattern>)
    requires Js.Get(payload, "statusCode").Undefined? || Js.Get(payload, "statusCode").NaN?
    ensures MatcherOutcome(payload, patterns).Err?
  {
    var status := Js.Get(payload, "statusCode");
    forall i | 0 <= i < |patterns|
      ensures !MatchStatus(status, patterns[i])
    {
    }
  }

  /** An accepted response passes through unchanged. */
  lemma MatcherAccepts(payload: Value, patterns: seq<StatusPattern>, i: int)
    requires 0 <= i < |patterns| && MatchStatus(Js.Get(payload, "statusCode"), patterns[i])
    ensures MatcherOutcome(payload, patterns) == Ok(payload)
  {
  }

  /**
   * A rejected response throws a HodrError that carries the status under
   * `http.statusCode`, and whose code is the internal code of the status or
   * 'internal-error' when the status has none.
   */
  lemma MatcherRejects(payload: Value, patterns: seq<StatusPattern>)
    requires !Js.IsNullish(payload) && !Accepted(Js.Get(payload, "statusCode"), patterns)
    ensures MatcherOutcome(payload, patterns).Err?
    ensures var e := FromThrown(MatcherOutcome(payload, patterns).error);
      var status := Js.Get(payload, "statusCode");
      && e.contextual == map["http" := Obj(map["statusCode" := status])]
      && (HttpStatus.ErrorCodeAtKey(status).Some? ==> e.code == HttpStatus.CodeName(HttpStatus.ErrorCodeAtKey(status).value))
      && (HttpStatus.ErrorCodeAtKey(status).None? ==> e.code == "internal-error")
  {
  }

  /**
   * A null or undefined payload is not a response: reading its status throws
   * the TypeError of a property read on it, whatever the patterns.
   */
  lemma MatcherOfNullish(payload: Value, patterns: seq<StatusPattern>)
    requires Js.IsNullish(payload)
    ensures MatcherOutcome(payload, patterns) == Err(Http.PropertyOfNullish(payload, "statusCode"))
    ensures MatcherOutcome(payload, patterns).error.NativeError? && MatcherOutcome(payload, patterns).error.name == "TypeError"
  {
  }

  /** With no patterns every response is rejected. */
  lemma NoPatternsRejectAll(payload: Value)
    ensures MatcherOutcome(payload, []).Err?
  {
  }

  /**
   * A rejected error status reports the internal code whose HTTP status is
   * the rejected status itself, so a route answering with the error's code
   * answers with the status the destination gave.
   */
  lemma RejectedErrorStatusRoundTrip(payload: Value, patterns: seq<StatusPattern>, status: int)
    requires Js.Get(payload, "statusCode") == Num(status)
    requires HttpStatus.HttpErrorStatusToInternal(status).Some?
    requires !Accepted(Num(status), patterns)
    ensures MatcherOutcome(payload, patterns).Err?
    ensures HttpStatus.ErrorStatusOfName(FromThrown(MatcherOutcome(payload, patterns).error).code) == Some(status)
  {
    HttpStatus.StatusKeyOfNumber(status);
    var c := HttpStatus.HttpErrorStatusToInternal(status).value;
    HttpStatus.ParseCodeName(c);
    HttpStatus.ErrorStatusRoundTrip(status);
  }
}
