/**
 * The JSON values the two wallet clients build and read, and the two JavaScript
 * operations they apply to them: property access (`v.name`) and truthiness (`!!v`).
 * Serialising and parsing text is not modelled here; the clients receive those as
 * primitives.
 */
module Json {
  import opened Wrappers

  /** A JSON value. Objects keep their members in insertion order. Numbers are integers. */
  datatype Json =
    | JNull
    | JBool(b: bool)
    | JNum(n: int)
    | JStr(s: string)
    | JArr(items: seq<Json>)
    | JObj(fields: seq<(string, Json)>)

  /** The member named `key`; as with JSON.parse, a later duplicate wins. */
  function Lookup(fields: seq<(string, Json)>, key: string): (r: Option<Json>)
    ensures r.Some? <==> exists k :: 0 <= k < |fields| && fields[k].0 == key
    ensures r.Some? ==> exists k :: 0 <= k < |fields| && fields[k] == (key, r.value)
  {
    if |fields| == 0 then None
    else if fields[|fields| - 1].0 == key then Some(fields[|fields| - 1].1)
    else Lookup(fields[..|fields| - 1], key)
  }

  /** The outcome of evaluating `v.key` in JavaScript: a value (None is `undefined`) or a thrown TypeError. */
  datatype Read = Value(value: Option<Json>) | TypeError

  /**
   * `v.key` where `v` is a JavaScript value: `undefined` and `null` throw, an object
   * yields its member, and every other value has none of the members the clients read.
   */
  function Prop(v: Option<Json>, key: string): (r: Read)
    ensures r.TypeError? <==> v.None? || v == Some(JNull)
    ensures v.Some? && v.value.JObj? ==> r == Value(Lookup(v.value.fields, key))
    ensures v.Some? && v.value != JNull && !v.value.JObj? ==> r == Value(None)
  {
    match v
    case None => TypeError
    case Some(JNull) => TypeError
    case Some(JObj(fields)) => Value(Lookup(fields, key))
    case Some(_) => Value(None)
  }

  /** JavaScript truthiness of a value, with `undefined` as None. */
  predicate Truthy(v: Option<Json>)
  {
    match v
    case None => false
    case Some(JNull) => false
    case Some(JBool(b)) => b
    case Some(JNum(n)) => n != 0
    case Some(JStr(s)) => s != ""
    case Some(_) => true
  }

  /** Reading any member of a truthy value never throws. */
  lemma TruthyReadable(v: Option<Json>, key: string)
    requires Truthy(v)
    ensures Prop(v, key).Value?
  {
  }
}
