/**
 * Reading the client's vectors and facings out of parsed JSON, as the
 * entity constructors do: `new Vec(o.x, o.y)` and `Dir.strToDir(o.facing)`.
 */
module ClientJson {
  import opened Wrappers
  import opened Json
  import opened AssocLists
  import opened ClientGeometry

  /** `new Vec(o.x, o.y)` on a field `o` read from the object. */
  function VecField(obj: Json, key: string): (r: Result<Vec>)
    requires !obj.JNull?
    ensures r.Ok? ==> HasKey(obj, key)
    ensures r.Ok? ==> JsGet(JsGet(obj, key).value.value, "x") == Ok(Some(JNum(r.value.x)))
    ensures r.Ok? ==> JsGet(JsGet(obj, key).value.value, "y") == Ok(Some(JNum(r.value.y)))
  {
    var o := JsGet(obj, key).value;
    if o.None? then Err(TypeError)
    else
      var x :- JsGet(o.value, "x");
      var y := JsGet(o.value, "y").value;
      if x.Some? && x.value.JNum? && y.Some? && y.value.JNum? then Ok(Vec(x.value.n, y.value.n))
      else Err(TypeError)
  }

  /** `Dir.strToDir(obj.facing)`: undefined for anything but the four letters. */
  function FacingField(obj: Json): (r: Option<Dir>)
    requires !obj.JNull?
    ensures r.Some? ==> JsGet(obj, "facing") == Ok(Some(JStr(DirLetter(r.value))))
  {
    var f := JsGet(obj, "facing").value;
    if f.Some? && f.value.JStr? then
      StrToDir(f.value.s)
    else None
  }

  /** A vector as the server sends it. */
  function VecJson(v: Vec): Json
  {
    JObj([("x", JNum(v.x)), ("y", JNum(v.y))])
  }

  lemma VecJsonFields(v: Vec)
    ensures JsGet(VecJson(v), "x") == Ok(Some(JNum(v.x)))
    ensures JsGet(VecJson(v), "y") == Ok(Some(JNum(v.y)))
  {
    var f := [("x", JNum(v.x)), ("y", JNum(v.y))];
    assert f[0].0 != "y";
    assert f[1..] == [("y", JNum(v.y))];
    assert Find(f, "y") == Find(f[1..], "y");
  }

  lemma VecFieldOf(j: Json, key: string, v: Vec)
    requires JsGet(j, key) == Ok(Some(VecJson(v)))
    ensures VecField(j, key) == Ok(v)
  {
    VecJsonFields(v);
  }
}
