/** The values `JSON.parse` can hand back to the screens, and the two
    JavaScript operations the screens apply to them: truthiness and
    property access. */
module Json {
  import opened Wrappers

  /** A parsed JSON value. Numbers are never produced by the modelled code
      and are kept as integers. */
  datatype Value =
    | JNull
    | JBool(b: bool)
    | JNum(n: int)
    | JStr(s: string)
    | JArr(items: seq<Value>)
    | JObj(fields: map<string, Value>)

  /** JavaScript truthiness: null, false, 0 and the empty string are falsy;
      every array and every object, even an empty one, is truthy. */
  predicate Truthy(v: Value) {
    match v
    case JNull => false
    case JBool(b) => b
    case JNum(n) => n != 0
    case JStr(s) => s != ""
    case JArr(_) => true
    case JObj(_) => true
  }

  /** The property read `v.name`. Reading a property of null throws, so the
      caller must rule null out; None is `undefined`, which is what every
      non-object yields for the names used here. */
  function Prop(v: Value, name: string): (r: Option<Value>)
    requires v != JNull
    ensures r.Some? <==> v.JObj? && name in v.fields
    ensures r.Some? ==> r.value == v.fields[name]
  {
    if v.JObj? && name in v.fields then Some(v.fields[name]) else None
  }
}
