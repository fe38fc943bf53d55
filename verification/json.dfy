/**
 * Already-parsed JSON values. Objects keep their keys in insertion order, as
 * both Python dicts and JavaScript objects do; a lookup takes the first field
 * with the key. `JSON.parse` and `json.loads` keep the last of a repeated key
 * and drop the others, so an object they return has each key once
 * (`UniqueKeys`), and a parser given here as a parameter is taken to return
 * such objects; the objects the model builds itself are proved to have
 * unique keys where a lookup on them matters.
 */
module Json {
  import opened Wrappers
  import opened AssocLists

  datatype Json =
    | JNull
    | JBool(b: bool)
    | JNum(n: real)
    | JStr(s: string)
    | JArr(items: seq<Json>)
    | JObj(fields: seq<(string, Json)>)

  function Keys(fields: seq<(string, Json)>): (ks: seq<string>)
    ensures |ks| == |fields|
    ensures forall i :: 0 <= i < |fields| ==> ks[i] == fields[i].0
  {
    if |fields| == 0 then [] else [fields[0].0] + Keys(fields[1..])
  }

  predicate HasKey(j: Json, key: string)
  {
    j.JObj? && Find(j.fields, key).Some?
  }

  /** Python's `d[key]`: KeyError for a missing key, TypeError on a non-dict. */
  function PyGet(j: Json, key: string): (r: Result<Json>)
    ensures r.Ok? <==> HasKey(j, key)
    ensures !j.JObj? ==> r == Err(TypeError)
  {
    if !j.JObj? then Err(TypeError)
    else match Find(j.fields, key)
      case Some(v) => Ok(v)
      case None => Err(KeyError)
  }

  /** A field's value is smaller than the object holding it, so parsers may recurse on it. */
  lemma PyGetSmaller(j: Json, key: string)
    requires PyGet(j, key).Ok?
    ensures PyGet(j, key).value < j
  {
    var v := PyGet(j, key).value;
    var i :| 0 <= i < |j.fields| && j.fields[i] == (key, v);
    assert j.fields[i] in j.fields;
  }

  /**
   * JavaScript's `o.key`: `undefined` (None) for a missing key or a
   * non-object, TypeError when `o` is null.
   */
  function JsGet(j: Json, key: string): (r: Result<Option<Json>>)
    ensures r.Err? <==> j.JNull?
    ensures r.Ok? && r.value.Some? <==> HasKey(j, key)
  {
    if j.JNull? then Err(TypeError)
    else if j.JObj? then Ok(Find(j.fields, key))
    else Ok(None)
  }

  /** A property's value is smaller than the object holding it. */
  lemma JsGetSmaller(j: Json, key: string)
    requires JsGet(j, key).Ok? && JsGet(j, key).value.Some?
    ensures JsGet(j, key).value.value < j
  {
    var v := JsGet(j, key).value.value;
    var i :| 0 <= i < |j.fields| && j.fields[i] == (key, v);
    assert j.fields[i] in j.fields;
  }

  /** JavaScript truthiness of a JSON value. */
  predicate JsTruthy(j: Json)
  {
    !(j.JNull? || j == JBool(false) || j == JNum(0.0) || j == JStr(""))
  }

  /** JavaScript truthiness of a value that may be `undefined`. */
  predicate JsTruthyOpt(v: Option<Json>)
  {
    v.Some? && JsTruthy(v.value)
  }
}
