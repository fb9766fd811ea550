/** The dynamically typed request fields the routes receive, with JavaScript's truthiness and `??`. */
module Values {

  /**
   * A JSON/form field as a handler sees it. `List` is an array of strings; NaN is not
   * a `Num` (it only arises from `Number(...)`, which the review module models).
   */
  datatype Value = Undefined | Null | Bool(b: bool) | Num(n: real) | Str(s: string) | List(items: seq<string>)

  /** JavaScript truthiness: `undefined`, `null`, `false`, `0` and `""` are falsy; every array is truthy. */
  predicate Truthy(v: Value)
  {
    match v
    case Undefined => false
    case Null => false
    case Bool(b) => b
    case Num(n) => n != 0.0
    case Str(s) => s != ""
    case List(_) => true
  }

  /** The values `??` replaces. */
  predicate Nullish(v: Value)
  {
    v.Undefined? || v.Null?
  }

  /** `v ?? fallback`. */
  function Coalesce(v: Value, fallback: Value): (r: Value)
    ensures Nullish(v) ==> r == fallback
    ensures !Nullish(v) ==> r == v
  {
    if Nullish(v) then fallback else v
  }

  /** `Boolean(v)`. */
  function ToBoolean(v: Value): (b: bool)
    ensures b <==> Truthy(v)
  {
    Truthy(v)
  }

  /** `v === "true"`. */
  predicate IsTrueString(v: Value)
  {
    v == Str("true")
  }
}
