/**
 * The untyped JSON values the agent parsers read, and the JavaScript
 * operators they apply to them: truthiness, `??`, and `JSON.parse` itself,
 * which is not implemented here but supplied as a parameter.
 */
module Json {
  import opened Wrappers

  /** A value produced by `JSON.parse`. Numbers are kept as reals. */
  datatype Json =
    | JNull
    | JBool(b: bool)
    | JNum(n: real)
    | JStr(s: string)
    | JArr(items: seq<Json>)
    | JObj(fields: map<string, Json>)

  /**
   * What the parsers need from the JavaScript runtime:
   * `parse` is `JSON.parse` (None when it throws a SyntaxError), and
   * `show` is the runtime's string conversion (ToString) of a non-string
   * value, which `Array.prototype.join` and template literals apply; None when
   * the conversion throws, as it does for an object whose own `toString` is
   * not callable.
   */
  datatype JsRuntime = JsRuntime(parse: string -> Option<Json>, show: Json -> Option<string>)

  /** JavaScript truthiness of a property read; None stands for `undefined`. */
  predicate Truthy(v: Option<Json>) {
    match v
    case None => false
    case Some(j) =>
      match j
      case JNull => false
      case JBool(b) => b
      case JNum(n) => n != 0.0
      case JStr(s) => s != ""
      case JArr(_) => true
      case JObj(_) => true
  }

  /** Nullish: `undefined` or `null`, the values `??` skips. */
  predicate Nullish(v: Option<Json>) {
    v.None? || v.value == JNull
  }

  /** `a ?? b`: the left operand unless it is `undefined` or `null`. */
  function Coalesce(a: Option<Json>, b: Json): (r: Json)
    ensures Nullish(a) ==> r == b
    ensures !Nullish(a) ==> Some(r) == a
  {
    if a.Some? && a.value != JNull then a.value else b
  }

  /** The string conversion of a value: a string is itself; None when the conversion throws. */
  function ShowText(js: JsRuntime, j: Json): Option<string> {
    if j.JStr? then Some(j.s) else js.show(j)
  }

  /**
   * `values.join(sep)` for values that are never null: each value converted
   * and the texts separated by `sep`; None when some conversion throws.
   */
  function JoinValues(js: JsRuntime, values: seq<Json>, sep: string): (r: Option<string>)
    ensures r.None? <==> exists i :: 0 <= i < |values| && ShowText(js, values[i]).None?
  {
    if values == [] then Some("")
    else
      var head := ShowText(js, values[0]);
      if |values| == 1 then head
      else
        var tail := JoinValues(js, values[1..], sep);
        assert forall i :: 1 <= i < |values| ==> values[i] == values[1..][i - 1];
        if head.None? || tail.None? then None else Some(head.value + sep + tail.value)
  }
}
