/** `isNil` from the utilities file, over a model of JavaScript values. */
module Utils {
  import opened Wrappers

  datatype JsValue =
    | Undefined
    | Null
    | Number(n: real)
    | NaN
    | Boolean(b: bool)
    | Str(s: string)
    | Object

  /** JavaScript truthiness (`!!v`). */
  predicate Truthy(v: JsValue) {
    match v
    case Undefined => false
    case Null => false
    case NaN => false
    case Number(n) => n != 0.0
    case Boolean(b) => b
    case Str(s) => s != ""
    case Object => true
  }

  /** `value === null || value === undefined`. */
  predicate IsNil(v: JsValue)
    ensures IsNil(v) ==> !Truthy(v)
  {
    v == Null || v == Undefined
  }

  /** How an optional numeric field of a device answer reads in JavaScript:
      absent means `undefined`. */
  function OptionalNumber(o: Option<real>): (v: JsValue)
    ensures o.Some? ==> v.Number?
  {
    match o
    case Some(n) => Number(n)
    case None => Undefined
  }

  /** The data handler's `!isNil(x)` test on an optional number is exactly
      "the data point is present". */
  lemma IsNilOptionalNumber(o: Option<real>)
    ensures IsNil(OptionalNumber(o)) <==> o.None?
  {
  }

  /** The documented examples, and the falsy values that are not nil. */
  lemma IsNilExamples()
    ensures IsNil(Null) && IsNil(Undefined)
    ensures !IsNil(NaN)
    ensures !IsNil(Number(0.0)) && !IsNil(Boolean(false)) && !IsNil(Str(""))
    ensures !Truthy(NaN) && !Truthy(Number(0.0)) && !Truthy(Boolean(false)) && !Truthy(Str(""))
  {
  }

  /** Only `null` and `undefined` are nil. */
  lemma IsNilOnlyNullOrUndefined(v: JsValue)
    requires v != Null && v != Undefined
    ensures !IsNil(v)
  {
  }
}
