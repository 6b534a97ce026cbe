/**
 * The handful of JavaScript values the card generator and the print-options page
 * inspect dynamically: `typeof`/`instanceof` dispatch, truthiness (`!x`, `x || y`)
 * and strict equality (`===`).
 */
module JsValues {

  /** A browser `File` chosen in an upload field. */
  datatype UploadedFile = UploadedFile(name: string, mimeType: string, contents: seq<bv8>)

  /**
   * A JavaScript value. Numbers are exact reals with `NaN` kept apart (no
   * rounding, no infinities, and `-0` is the same as `0`).
   */
  datatype JsValue =
    | Undefined
    | Null
    | Boolean(b: bool)
    | Number(n: real)
    | NaN
    | Str(s: string)
    | File(file: UploadedFile)
    | Object   // any other object: arrays, plain records, functions

  /** JavaScript truthiness: what `!v` negates and what `v || w` tests. */
  predicate Truthy(v: JsValue)
  {
    match v
    case Undefined => false
    case Null => false
    case Boolean(b) => b
    case Number(n) => n != 0.0
    case NaN => false
    case Str(s) => s != ""
    case File(_) => true
    case Object => true
  }

}
