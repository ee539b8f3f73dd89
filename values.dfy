/**
 * The JavaScript values that flow through a hodr execution (payloads, atoms,
 * journal entries, response bodies), together with HodrError, which is a
 * value of its own: a route may answer with the error as its body.
 *
 * Numbers are integers: `NaN` is kept as its own constructor because the
 * object-path coercions produce it; fractional numbers are not modelled.
 */
module Values {
  datatype Value =
    | Undefined
    | Null
    | Bool(b: bool)
    | Num(n: int)
    | NaN
    | Str(s: string)
    | Arr(items: seq<Value>)
    | Obj(fields: map<string, Value>)
    | ErrorVal(err: HodrError)

  /** HodrError (core/src/engine/types.ts): an absent `detail` or `cause` is `Undefined`. */
  datatype HodrError = HodrError(
    message: string,
    contextual: map<string, Value>,
    code: string,
    detail: Value,
    cause: Value)
}
