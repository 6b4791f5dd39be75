/** JSON values as `JSON.parse` and `require` produce them and as the synthesiser
    writes them. Object key order is not represented. */
module Json {
  import opened JsText

  datatype Option<+T> = None | Some(value: T)

  datatype JsonValue =
    | JNull
    | JBool(b: bool)
    | JNumber(n: real)
    | JString(s: string)
    | JArray(items: seq<JsonValue>)
    | JObject(fields: map<string, JsonValue>)

  /** The index properties `"0"`, `"1"`, ... of a list of values. */
  function IndexFields(items: seq<JsonValue>): (m: map<string, JsonValue>)
    ensures forall i :: 0 <= i < |items| ==> NatToString(i) in m && m[NatToString(i)] == items[i]
    ensures forall k :: k in m ==> exists i :: 0 <= i < |items| && NatToString(i) == k
  {
    NatToStringInjective();
    map i | 0 <= i < |items| :: NatToString(i) := items[i]
  }

  /** The one-character strings a string spreads into, in order. */
  function StringItems(s: string): (items: seq<JsonValue>)
    ensures |items| == |s|
    ensures forall i :: 0 <= i < |s| ==> items[i] == JString([s[i]])
  {
    seq(|s|, i requires 0 <= i < |s| => JString([s[i]]))
  }

  /** The own enumerable properties `{ ...v }` copies from a parsed value: the
      fields of an object, the index properties of an array or of a string (one
      character each), none for `null`, booleans and numbers. */
  function OwnFields(v: JsonValue): (m: map<string, JsonValue>)
    ensures v.JObject? ==> m == v.fields
    ensures v.JArray? ==> m == IndexFields(v.items)
    ensures v.JString? ==> m == IndexFields(StringItems(v.s))
    ensures v.JNull? || v.JBool? || v.JNumber? ==> m == map[]
  {
    match v
    case JObject(fields) => fields
    case JArray(items) => IndexFields(items)
    case JString(s) => IndexFields(StringItems(s))
    case _ => map[]
  }

  /** `v[key]` on a value that is not `null`, for a key that is not an index:
      the property when the value is an object holding it, `undefined` (here
      `None`) otherwise. */
  function Member(v: JsonValue, key: string): (r: Option<JsonValue>)
    ensures r.Some? <==> v.JObject? && key in v.fields
    ensures r.Some? ==> r.value == v.fields[key]
  {
    if v.JObject? && key in v.fields then Some(v.fields[key]) else None
  }

  /** `{ ...m, key: value }` as JSON sees it: a property set to `undefined` is
      dropped when the object is serialised, so it is absent here. */
  function SetOrDrop(m: map<string, JsonValue>, key: string, value: Option<JsonValue>): (r: map<string, JsonValue>)
    ensures value.Some? ==> key in r && r[key] == value.value
    ensures value.None? ==> key !in r
    ensures forall k :: k in m && k != key ==> k in r && r[k] == m[k]
    ensures forall k :: k in r ==> k in m || k == key
  {
    if value.Some? then m[key := value.value] else m - {key}
  }
}
