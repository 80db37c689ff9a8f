/** JavaScript values as the request bodies and input records carry them: a field
    may be missing (`undefined`), explicitly `null`, or hold a value, and the code
    distinguishes these through `!== undefined` tests and through truthiness. */
module JsValues {
  import opened Wrappers

  datatype JsValue<+T> = Undefined | Null | Defined(value: T) {
    /** `x !== undefined` */
    predicate IsDefined() { !Undefined? }

    /** What a nullable column receives from `x` when `x !== undefined`. */
    function ToNullable(): (r: Option<T>)
      ensures r.Some? <==> Defined?
      ensures r.Some? ==> r.value == value
    {
      if Defined? then Some(value) else None
    }
  }

  /** Truthiness of a string: `undefined`, `null` and `''` are falsy. */
  predicate TruthyString(v: JsValue<string>) { v.Defined? && v.value != "" }

  /** Truthiness of a number (NaN is not modelled): `0` is falsy. */
  predicate TruthyInt(v: JsValue<int>) { v.Defined? && v.value != 0 }

  /** Truthiness of a boolean. */
  predicate TruthyBool(v: JsValue<bool>) { v.Defined? && v.value }

  /** Truthiness of an object or array: every object is truthy, even `{}` and `[]`. */
  predicate TruthyObject<T>(v: JsValue<T>) { v.Defined? }

  /** Truthiness of an optional string field declared `x?: string`. */
  predicate TruthyOptString(v: Option<string>) { v.Some? && v.value != "" }

  /** `s || null` for a string. */
  function StringOrNull(v: JsValue<string>): (r: Option<string>)
    ensures r.Some? <==> TruthyString(v)
    ensures r.Some? ==> r == v.ToNullable()
  {
    if TruthyString(v) then Some(v.value) else None
  }

  /** `n || null` for a number: a `0` becomes `null`. */
  function IntOrNull(v: JsValue<int>): (r: Option<int>)
    ensures r.Some? <==> TruthyInt(v)
    ensures r.Some? ==> r == v.ToNullable()
  {
    if TruthyInt(v) then Some(v.value) else None
  }

  /** `a || null` for an object or array. */
  function ObjectOrNull<T>(v: JsValue<T>): (r: Option<T>)
    ensures r == v.ToNullable()
  {
    if v.Defined? then Some(v.value) else None
  }
}
