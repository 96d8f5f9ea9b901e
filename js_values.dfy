/** The JavaScript values that reach the core through request bodies, query
    strings and parsed JSON, with the three language operations the core
    relies on: truthiness (and with it `||`), `typeof`, and conversion to a
    string inside a template literal. */
module JsValues {

  /** A JavaScript value. Numbers are integers (plus NaN); a Date carries
      the text it converts to. Of a plain object only one thing is read:
      whether `o.length > 0` holds (a parsed `{"length": 1}` passes that
      test); its other fields are never inspected. */
  datatype JsValue =
    | Undefined
    | Null
    | Bool(b: bool)
    | Num(n: int)
    | NaN
    | Str(s: string)
    | Arr(elems: seq<JsValue>)
    | Date(text: string)
    | Obj(positiveLength: bool)

  /** A request body or query object: an absent key reads as `undefined`. */
  type JsObject = map<string, JsValue>

  function Get(o: JsObject, key: string): JsValue {
    if key in o then o[key] else Undefined
  }

  /** JavaScript truthiness: `undefined`, `null`, `false`, `0`, `NaN` and
      `""` are falsy, every other value is truthy. */
  predicate Truthy(v: JsValue) {
    match v
    case Undefined => false
    case Null => false
    case Bool(b) => b
    case Num(n) => n != 0
    case NaN => false
    case Str(s) => s != ""
    case _ => true
  }

  /** `a || b`: the left operand when it is truthy, else the right one. */
  function Or(a: JsValue, b: JsValue): (r: JsValue)
    ensures Truthy(a) ==> r == a
    ensures !Truthy(a) ==> r == b
    ensures Truthy(r) <==> Truthy(a) || Truthy(b)
  {
    if Truthy(a) then a else b
  }

  /** The `typeof` operator. */
  function TypeOf(v: JsValue): (t: string)
    ensures t in {"undefined", "object", "boolean", "number", "string"}
  {
    match v
    case Undefined => "undefined"
    case Bool(_) => "boolean"
    case Num(_) => "number"
    case NaN => "number"
    case Str(_) => "string"
    case _ => "object"
  }

  /** The text a value turns into inside a template literal (`${v}`).
      An array renders its elements joined by ",", with `null` and
      `undefined` elements rendered empty. */
  function Render(v: JsValue): string
    decreases v, 1
  {
    match v
    case Undefined => "undefined"
    case Null => "null"
    case Bool(b) => if b then "true" else "false"
    case Num(n) => IntToDecimal(n)
    case NaN => "NaN"
    case Str(s) => s
    case Arr(elems) => RenderElements(elems)
    case Date(text) => text
    case Obj(_) => "[object Object]"
  }

  function RenderElements(elems: seq<JsValue>): string
    decreases elems, 0
  {
    if |elems| == 0 then ""
    else
      var first := if elems[0].Undefined? || elems[0].Null? then "" else Render(elems[0]);
      if |elems| == 1 then first else first + "," + RenderElements(elems[1..])
  }

  function DigitChar(d: nat): char
    requires d < 10
  {
    "0123456789"[d]
  }

  function NatToDecimal(n: nat): string
  {
    if n < 10 then [DigitChar(n)] else NatToDecimal(n / 10) + [DigitChar(n % 10)]
  }

  function IntToDecimal(n: int): string
  {
    if n < 0 then "-" + NatToDecimal(-n) else NatToDecimal(n)
  }
}
