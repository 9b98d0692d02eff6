/** JSON values as the handler sees them after `express.json()` or `JSON.parse`,
    with the three pieces of JavaScript semantics the handler relies on:
    truthiness, reading a named property, and the string conversion a
    template literal applies to an interpolated value. */
module JsValues {
  import opened Results

  /** A JSON value. A number is held as the text `Number.prototype.toString`
      gives for its double value (so `0` and `-0` are both "0"); JSON cannot
      produce `NaN`. An object maps its own property names to their values. */
  datatype Json =
    | JNull
    | JBool(b: bool)
    | JNumber(text: string)
    | JString(s: string)
    | JArray(elems: seq<Json>)
    | JObject(fields: map<string, Json>)

  /** JavaScript truthiness of a property read, where `None` is `undefined`:
      `undefined`, `null`, `false`, `0` and `""` are falsy; every other value,
      every object and every array included, is truthy. */
  predicate Truthy(v: Option<Json>) {
    match v
    case None => false
    case Some(JNull) => false
    case Some(JBool(b)) => b
    case Some(JNumber(t)) => t != "0"
    case Some(JString(s)) => s != ""
    case Some(JArray(_)) => true
    case Some(JObject(_)) => true
  }

  /** Exactly five values are falsy; in particular empty arrays and empty
      objects are truthy. */
  lemma FalsyExactly(v: Option<Json>)
    ensures !Truthy(v) <==>
      v == None || v == Some(JNull) || v == Some(JBool(false)) || v == Some(JNumber("0")) || v == Some(JString(""))
  {
  }

  /** The own property `key` of a map-shaped record, `None` when it is absent. */
  function Lookup(m: map<string, Json>, key: string): Option<Json>
  {
    if key in m then Some(m[key]) else None
  }

  /** The only property names the handler reads from a parsed reply. None of
      them is defined by the built-in prototypes of strings, numbers, booleans,
      arrays or plain objects, so on those values the read yields `undefined`. */
  const ReplyKeys: set<string> := {"title", "description", "steps"}

  /** The message V8 gives the TypeError thrown when property `key` is read from `null`. */
  function NullReadError(key: string): string {
    "Cannot read properties of null (reading '" + key + "')"
  }

  /** `v.key` for one of the reply keys: a TypeError on `null`, the own
      property on an object, `undefined` on every other value. */
  function ReadProperty(v: Json, key: string): (r: Result<Option<Json>, string>)
    requires key in ReplyKeys
    ensures r.Err? <==> v.JNull?
    ensures r.Err? ==> r.error == NullReadError(key)
    ensures r.Ok? && r.value.Some? ==> v.JObject? && key in v.fields && r.value.value == v.fields[key]
    ensures v.JObject? ==> r == Ok(Lookup(v.fields, key))
  {
    match v
    case JNull => Err(NullReadError(key))
    case JObject(m) => Ok(Lookup(m, key))
    case _ => Ok(None)
  }

  /** What `String(o)` gives for a plain object: `Object.prototype.toString`. */
  const ObjectText: string := "[object Object]"

  /** The message V8 gives the TypeError thrown by ToPrimitive when neither
      `toString` nor `valueOf` of an object is callable. */
  const ToPrimitiveError: string := "Cannot convert object to primitive value"

  /** The string a template literal produces for `${v}` (ECMAScript ToString),
      or the TypeError it throws. A JSON object with an own `toString`
      property shadows the callable one of `Object.prototype` with a value
      that cannot be called, and `valueOf` returns the object itself, so the
      conversion throws. An array converts through `join(",")`. */
  function TemplateText(v: Json): (r: Result<string, string>)
    ensures v.JString? ==> r == Ok(v.s)
    ensures v.JObject? ==> (r.Err? <==> "toString" in v.fields)
    ensures v.JObject? && r.Ok? ==> r.value == ObjectText
    ensures r.Err? ==> r.error == ToPrimitiveError
    ensures v.JArray? ==> (r.Err? <==> exists j :: 0 <= j < |v.elems| && TemplateText(v.elems[j]).Err?)
    decreases v, 1
  {
    match v
    case JNull => Ok("null")
    case JBool(b) => Ok(if b then "true" else "false")
    case JNumber(t) => Ok(t)
    case JString(s) => Ok(s)
    case JObject(m) => if "toString" in m then Err(ToPrimitiveError) else Ok(ObjectText)
    case JArray(_) => JoinFrom(v, 0)
  }

  /** `Array.prototype.join(",")` over the elements of array `v` from index
      `i` on: `null` elements contribute the empty string, the others their
      ToString, and the first element that throws stops the join. */
  function JoinFrom(v: Json, i: nat): (r: Result<string, string>)
    requires v.JArray? && i <= |v.elems|
    ensures i == |v.elems| ==> r == Ok("")
    ensures r.Err? ==> r.error == ToPrimitiveError
    ensures r.Err? <==> exists j :: i <= j < |v.elems| && TemplateText(v.elems[j]).Err?
    decreases v, 0, |v.elems| - i
  {
    if i == |v.elems| then Ok("")
    else
      var head := if v.elems[i].JNull? then Ok("") else TemplateText(v.elems[i]);
      if head.Err? then head
      else if i + 1 == |v.elems| then head
      else
        match JoinFrom(v, i + 1)
        case Err(e) => Err(e)
        case Ok(tail) => Ok(head.value + "," + tail)
  }

  /** `${["a", null, ["b", "c"]]}` is "a,,b,c": a null element joins as the
      empty string and a nested array is flattened by its own join. */
  lemma NestedArrayJoin()
    ensures TemplateText(JArray([JString("a"), JNull, JArray([JString("b"), JString("c")])])) == Ok("a,,b,c")
  {
    var inner := JArray([JString("b"), JString("c")]);
    var outer := JArray([JString("a"), JNull, inner]);
    assert JoinFrom(inner, 1) == Ok("c");
    assert JoinFrom(inner, 0) == Ok("b" + "," + "c");
    assert "b" + "," + "c" == "b,c";
    assert JoinFrom(outer, 2) == Ok("b,c");
    assert JoinFrom(outer, 1) == Ok("" + "," + "b,c");
    assert "" + "," + "b,c" == ",b,c";
    assert JoinFrom(outer, 0) == Ok("a" + "," + ",b,c");
    assert "a" + "," + ",b,c" == "a,,b,c";
  }
}
