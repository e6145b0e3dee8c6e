/** JSON documents and the few JavaScript operations the chat code applies to
    them: property reads that throw on `null`/`undefined`, and truthiness. */
module JsValues {
  import opened Basics

  /** A parsed JSON document (numbers restricted to integers). */
  datatype Json =
    | JNull
    | JBool(b: bool)
    | JNumber(n: int)
    | JString(s: string)
    | JArray(items: seq<Json>)
    | JObject(fields: map<string, Json>)

  /** A JavaScript value reached from parsed JSON: a JSON value or `undefined`. */
  datatype Val = Undefined | Defined(json: Json)

  /** Reading a property of `null` or `undefined` throws a TypeError. */
  predicate IsNullish(v: Val) {
    v == Undefined || v == Defined(JNull)
  }

  /** `v.key`, for the keys this code reads (`messages`, `model`, `content`,
      `text`, `error`, ...), none of which is inherited from a prototype.
      None stands for the TypeError thrown on a nullish `v`. */
  function Get(v: Val, key: string): (r: Option<Val>)
    ensures r.None? <==> IsNullish(v)
    ensures r.Some? && r.value.Defined? ==> v.json.JObject? && key in v.json.fields
                                            && r.value.json == v.json.fields[key]
    ensures v.Defined? && v.json.JObject? && key in v.json.fields ==> r == Some(Defined(v.json.fields[key]))
  {
    match v
    case Undefined => None
    case Defined(JNull) => None
    case Defined(JObject(fields)) => Some(if key in fields then Defined(fields[key]) else Undefined)
    case Defined(_) => Some(Undefined)
  }

  /** The property key an index converts to: its decimal numeral. */
  function IndexKey(i: nat): (k: string)
    ensures |k| > 0
    ensures forall c :: c in k ==> '0' <= c <= '9'
    ensures i < 10 ==> k == [('0' as int + i) as char]
  {
    if i < 10 then [('0' as int + i) as char] else IndexKey(i / 10) + IndexKey(i % 10)
  }

  /** `v[i]`: an array element, a one-character string, an object's property
      under the key `"i"`, otherwise `undefined`. None stands for the
      TypeError thrown on a nullish `v`. */
  function At(v: Val, i: nat): (r: Option<Val>)
    ensures r.None? <==> IsNullish(v)
    ensures v.Defined? && v.json.JArray? ==>
              r == Some(if i < |v.json.items| then Defined(v.json.items[i]) else Undefined)
    ensures v.Defined? && v.json.JObject? ==> r == Get(v, IndexKey(i))
    ensures v.Defined? && v.json.JString? ==>
              r == Some(if i < |v.json.s| then Defined(JString([v.json.s[i]])) else Undefined)
    ensures v.Defined? && (v.json.JNumber? || v.json.JBool?) ==> r == Some(Undefined)
  {
    match v
    case Undefined => None
    case Defined(JNull) => None
    case Defined(JArray(items)) => Some(if i < |items| then Defined(items[i]) else Undefined)
    case Defined(JString(s)) => Some(if i < |s| then Defined(JString([s[i]])) else Undefined)
    case Defined(JObject(fields)) => Get(v, IndexKey(i))
    case Defined(_) => Some(Undefined)
  }

  /** JavaScript truthiness: `undefined`, `null`, `false`, `0` and `""` are falsy. */
  predicate Truthy(v: Val) {
    match v
    case Undefined => false
    case Defined(JNull) => false
    case Defined(JBool(b)) => b
    case Defined(JNumber(n)) => n != 0
    case Defined(JString(s)) => s != ""
    case Defined(_) => true
  }

  /** `Array.isArray(v)`. */
  predicate IsArray(v: Val) {
    v.Defined? && v.json.JArray?
  }

  /** Adds the property `key: v` to an object being serialised: as
      `JSON.stringify` does, a property whose value is `undefined` is left out. */
  function WithField(fields: map<string, Json>, key: string, v: Val): map<string, Json> {
    if v.Defined? then fields[key := v.json] else fields
  }
}
