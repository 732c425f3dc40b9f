/** Values as the JavaScript sources handle them (message payloads, plugin state, element
    records), with JavaScript truthiness and object spread. Numbers are integers here. */
module Json {
  datatype Value =
    | Undefined
    | Null
    | Bool(b: bool)
    | Num(n: int)
    | Str(s: string)
    | Arr(items: seq<Value>)
    | Obj(fields: map<string, Value>)

  /** What `if (v)` accepts: everything except undefined, null, false, 0 and "". */
  predicate Truthy(v: Value) {
    match v
    case Undefined => false
    case Null => false
    case Bool(b) => b
    case Num(n) => n != 0
    case Str(s) => s != ""
    case Arr(_) => true
    case Obj(_) => true
  }

  /** `v == null` in JavaScript: true for both null and undefined. */
  predicate IsNullish(v: Value) {
    v.Undefined? || v.Null?
  }

  /** Property read `o.k` on an object; a missing key (or a non-object) reads as undefined. */
  function Field(o: Value, k: string): Value {
    if o.Obj? && k in o.fields then o.fields[k] else Undefined
  }

  /** Object spread `{...a, ...b}`: every key of both, the right-hand side winning. */
  function Spread(a: map<string, Value>, b: map<string, Value>): (r: map<string, Value>)
    ensures r.Keys == a.Keys + b.Keys
    ensures forall k :: k in b ==> r[k] == b[k]
    ensures forall k :: k in a && k !in b ==> r[k] == a[k]
  {
    a + b
  }

  /** The own properties a spread copies out of a value: an object's fields, nothing otherwise. */
  function SpreadFields(v: Value): map<string, Value> {
    if v.Obj? then v.fields else map[]
  }
}
