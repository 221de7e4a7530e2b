/** The values a parsed notification body can hold, and JavaScript's truthiness on them. */
module Json {
  import opened Wrappers

  /** A JavaScript `Date`: a time value in milliseconds, or the invalid date. */
  datatype DateTime = Time(ms: int) | InvalidDate

  /**
   * A JSON value as produced by `JSON.parse`, plus `DateVal`, the `Date` objects
   * that the date fix-up writes into a parsed object.
   */
  datatype Value =
    | Null
    | Bool(b: bool)
    | Num(n: real)
    | Str(s: string)
    | Arr(items: seq<Value>)
    | Obj(fields: map<string, Value>)
    | DateVal(time: DateTime)

  /** JavaScript truthiness: `null`, `false`, `0` and `''` are falsy, every object is truthy. */
  predicate Truthy(v: Value)
    ensures Truthy(v) <==> v != Null && v != Bool(false) && v != Num(0.0) && v != Str("")
    ensures v.Str? ==> (Truthy(v) <==> |v.s| >= 1)
    ensures v.Arr? || v.Obj? || v.DateVal? ==> Truthy(v)
  {
    match v
    case Null => false
    case Bool(b) => b
    case Num(n) => n != 0.0
    case Str(s) => s != ""
    case _ => true
  }

  /** Property access `v.key`: `None` is `undefined`, which is also what non-objects give. */
  function Property(v: Value, key: string): (r: Option<Value>)
    ensures r.Some? <==> v.Obj? && key in v.fields
    ensures r.Some? ==> r.value == v.fields[key]
  {
    if v.Obj? && key in v.fields then Some(v.fields[key]) else None
  }
}
