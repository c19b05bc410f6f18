/** A parsed JSON value, as `JSON.parse` returns it, with the two JavaScript
    operations the API client applies to it: truthiness and the conversion
    `new Error(value)` performs on a non-string message (`String(value)`).
    Numbers are integers here. */
module Json {
  import opened Common

  datatype Json =
    | JNull
    | JBool(b: bool)
    | JNumber(n: int)
    | JString(s: string)
    | JArray(items: seq<Json>)
    | JObject(fields: map<string, Json>)

  /** JavaScript truthiness: null, false, 0 and "" are falsy; arrays and objects are truthy. */
  predicate IsTruthy(v: Json) {
    match v
    case JNull => false
    case JBool(b) => b
    case JNumber(n) => n != 0
    case JString(s) => s != ""
    case JArray(_) => true
    case JObject(_) => true
  }

  /** `v?.[key]` on a parsed body that may be undefined, for a key that no
      parsed value inherits (such as "error"): only an object's own
      properties are found. Keys such as "constructor" or "length" would
      also find inherited members; they are not looked up this way. */
  function Property(v: Option<Json>, key: string): Option<Json> {
    if v.Some? && v.value.JObject? && key in v.value.fields then Some(v.value.fields[key]) else None
  }

  /** Whether `String(v)` returns at all. Converting an object calls its
      `toString`; a parsed object that owns a "toString" property has a
      non-callable one there, and the conversion throws a `TypeError`. An
      array converts its non-null items, so it fails when one of them does. */
  predicate Convertible(v: Json) {
    match v
    case JObject(fields) => "toString" !in fields
    case JArray(items) => forall k :: 0 <= k < |items| ==> items[k].JNull? || Convertible(items[k])
    case _ => true
  }

  /** `String(v)`: the message `new Error(v)` carries, or None when the
      conversion throws a `TypeError`. */
  function StringOf(v: Json): (s: Option<string>)
    ensures s.None? <==> !Convertible(v)
    ensures v.JString? ==> s == Some(v.s)
    ensures v.JObject? && "toString" !in v.fields ==> s == Some("[object Object]")
    decreases v, 1
  {
    match v
    case JNull => Some("null")
    case JBool(b) => Some(if b then "true" else "false")
    case JNumber(n) => Some(IntToString(n))
    case JString(s) => Some(s)
    case JArray(items) => ItemsString(v, 0)
    case JObject(fields) => if "toString" in fields then None else Some("[object Object]")
  }

  /** `items.slice(i).join(",")`, where `join` renders null as "". */
  function ItemsString(a: Json, i: nat): (r: Option<string>)
    requires a.JArray? && i <= |a.items|
    ensures r.None? <==> exists k :: i <= k < |a.items| && !a.items[k].JNull? && !Convertible(a.items[k])
    decreases a, 0, |a.items| - i
  {
    if i == |a.items| then Some("")
    else
      var item := a.items[i];
      var text := if item.JNull? then Some("") else StringOf(item);
      if text.None? then None
      else if i + 1 == |a.items| then text
      else
        var rest := ItemsString(a, i + 1);
        if rest.None? then None else Some(text.value + "," + rest.value)
  }

  /** An error object that owns a "toString" key, directly or inside an
      array, cannot be turned into a message. */
  lemma OwnToStringNotConvertible()
    ensures StringOf(JObject(map["toString" := JString("x")])) == None
    ensures StringOf(JArray([JObject(map["toString" := JNumber(1)])])) == None
    ensures StringOf(JArray([JNull, JString("a")])) == Some(",a")
  {
    var o := JObject(map["toString" := JNumber(1)]);
    assert JArray([o]).items[0] == o;
    var a := JArray([JNull, JString("a")]);
    assert ItemsString(a, 1) == Some("a");
    assert ItemsString(a, 0) == Some("" + "," + "a");
    assert "" + "," + "a" == ",a";
    assert StringOf(a) == ItemsString(a, 0);
  }
}
