/**
 * How JavaScript writes a value into text, as a template literal
 * (`${v}`) or `String(v)` does, for the values a parsed JSON message can
 * hold and for `undefined`.
 */
module JsText {
  import opened Wrappers
  import opened Json
  import opened Decimal

  /**
   * The text a template literal makes of a value, as `String(v)` does:
   * None where the model does not follow JavaScript (a number with a
   * fraction, or of magnitude 10^21 or more, which JavaScript writes in
   * its own shortest or exponent form).
   */
  function TemplateText(v: Option<Json>): (t: Option<string>)
    ensures v.None? ==> t == Some("undefined")
    ensures v.Some? && v.value.JStr? ==> t == Some(v.value.s)
  {
    match v
    case None => Some("undefined")
    case Some(x) => ValueText(x)
  }

  /** `String(v)` of a JSON value; an array is its elements' texts joined by commas, null giving "". */
  function ValueText(v: Json): (t: Option<string>)
    decreases v, 1, 0
  {
    match v
    case JNull => Some("null")
    case JBool(b) => Some(if b then "true" else "false")
    case JNum(n) => if n == n.Floor as real && -1e21 < n < 1e21 then Some(IntToString(n.Floor)) else None
    case JStr(s) => Some(s)
    case JObj(_) => Some("[object Object]")
    case JArr(items) => JoinedFrom(v, 0)
  }

  /** The texts of an array's elements from `i` on, joined by commas. */
  function JoinedFrom(a: Json, i: nat): (t: Option<string>)
    requires a.JArr? && i <= |a.items|
    decreases a, 0, |a.items| - i
  {
    if i == |a.items| then Some("")
    else
      var e := a.items[i];
      assert e < a by { assert e in a.items; }
      var head := if e.JNull? then Some("") else ValueText(e);
      if head.None? then None
      else if i + 1 == |a.items| then head
      else
        match JoinedFrom(a, i + 1)
        case None => None
        case Some(rest) => Some(head.value + "," + rest)
  }

  /**
   * A template literal with one value in it: `pre`, the value's text and
   * `post`. Where `TemplateText` does not model the value, the text is left
   * out and the literal is `pre + post`.
   */
  function Interpolated(pre: string, v: Option<Json>, post: string): (m: string)
    ensures TemplateText(v).Some? ==> m == pre + TemplateText(v).value + post
    ensures TemplateText(v).None? ==> m == pre + post
  {
    match TemplateText(v)
    case Some(t) => pre + t + post
    case None => pre + post
  }
}
