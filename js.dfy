/** JavaScript values as the rest of the model sees them: optional values
    (null and undefined), numbers that may be NaN, and truthiness. */
module Js {

  datatype Option<+T> = None | Some(value: T)

  /** A JavaScript number: NaN or a finite value. Infinities are not modelled. */
  datatype JsNumber = NaN | Finite(value: real)

  /** No value occurs twice. */
  predicate Distinct<T(==)>(s: seq<T>) {
    forall i, j :: 0 <= i < j < |s| ==> s[i] != s[j]
  }

  /** Truthiness of an optional text value: `null`, `undefined` and `""` are falsy. */
  predicate TruthyText(o: Option<string>) {
    o.Some? && o.value != ""
  }

  /** Truthiness of an optional number: `null`, `undefined` and `0` are falsy. */
  predicate TruthyNumber(o: Option<real>) {
    o.Some? && o.value != 0.0
  }

  /** `o || fallback` on an optional text value. */
  function TextOr(o: Option<string>, fallback: string): (r: string)
    ensures TruthyText(o) ==> r == o.value
    ensures !TruthyText(o) ==> r == fallback
    ensures r != "" <==> TruthyText(o) || fallback != ""
  {
    if TruthyText(o) then o.value else fallback
  }
}
