/** Values shared by every part of the model: optional values standing for JavaScript's
    `undefined`/`null`, results standing for a thrown exception, and JavaScript truthiness
    of the optional strings the source tests with `if (x)` and `a || b`. */
module Common {

  /** A JavaScript value that may be `undefined` (or `null`): `None` is the missing value. */
  datatype Option<+T> = None | Some(value: T) {

    /** The value, or `default` when missing; the meaning of a destructuring default `{ x = d }`. */
    function GetOr(default: T): T {
      match this
      case Some(v) => v
      case None => default
    }
  }

  /** The outcome of a call that may throw. */
  datatype Result<+T, +E> = Success(value: T) | Failure(error: E)

  /** The exceptions the modelled code raises: a `TypeError` from reading `property` of
      `undefined` or `null`, or from calling a method that does not exist, and the
      `SyntaxError` of `JSON.parse` on text that is not JSON. */
  datatype JsError = TypeError(property: string) | SyntaxError

  /** JavaScript truthiness of an optional string: missing and `""` are falsy. */
  predicate Truthy(s: Option<string>) {
    s.Some? && s.value != ""
  }

  /** `a || b` on optional strings: `a` when it is truthy, otherwise `b` as it is. */
  function Or(a: Option<string>, b: Option<string>): (r: Option<string>)
    ensures Truthy(r) <==> Truthy(a) || Truthy(b)
    ensures Truthy(a) ==> r == a
    ensures !Truthy(a) ==> r == b
  {
    if Truthy(a) then a else b
  }

  /** Template-literal interpolation `${x}` of an optional string. */
  function Interpolate(s: Option<string>): string {
    s.GetOr("undefined")
  }
}
