/** The JavaScript values the core handles without a static type: parsed
    YAML, JSON request bodies, and the raw choice objects stored on a step. */
module JsValues {
  import opened Base
  import opened Text

  /** Numbers are modelled as integers; fractional numbers do not occur in
      the values the core inspects. */
  datatype JsValue =
    | Undefined
    | Null
    | Bool(b: bool)
    | Num(n: int)
    | Str(s: string)
    | Arr(items: seq<JsValue>)
    | Obj(fields: map<string, JsValue>)

  /** Outcome of `yaml.load`: it throws, or yields a value. */
  datatype YamlResult = YamlError | Loaded(value: JsValue)

  /** JavaScript truthiness. */
  predicate Truthy(v: JsValue)
  {
    match v
    case Undefined => false
    case Null => false
    case Bool(b) => b
    case Num(n) => n != 0
    case Str(s) => s != ""
    case Arr(_) => true
    case Obj(_) => true
  }

  /** `!!v && typeof v === "object"`: arrays and plain objects. */
  predicate IsObject(v: JsValue)
  {
    v.Arr? || v.Obj?
  }

  /** Property read `v[key]` on a value that is not null or undefined; arrays,
      strings, numbers and booleans have none of the keys the core reads. */
  function Get(v: JsValue, key: string): JsValue
  {
    if v.Obj? && key in v.fields then v.fields[key] else Undefined
  }

  /** `v ?? fallback`. */
  function OrElse(v: JsValue, fallback: JsValue): JsValue
  {
    if v.Undefined? || v.Null? then fallback else v
  }

  function Digit(d: nat): char
    requires d < 10
  {
    "0123456789"[d]
  }

  /** Decimal rendering of a natural number. */
  function NatToString(n: nat): (r: string)
    ensures r != []
    ensures forall i :: 0 <= i < |r| ==> '0' <= r[i] <= '9'
  {
    if n < 10 then [Digit(n)] else NatToString(n / 10) + [Digit(n % 10)]
  }

  /** `n.toString()` for an integer. */
  function IntToString(n: int): (r: string)
    ensures r != [] && !IsSpace(r[0]) && !IsSpace(r[|r| - 1])
  {
    if n < 0 then "-" + NatToString(-n) else NatToString(n)
  }

  function BoolToString(b: bool): string
  {
    if b then "true" else "false"
  }

  /** `String(v)`, which is also what a template literal `${v}` produces. */
  function Display(v: JsValue): string
    decreases v, 1
  {
    match v
    case Undefined => "undefined"
    case Null => "null"
    case Bool(b) => BoolToString(b)
    case Num(n) => IntToString(n)
    case Str(s) => s
    case Arr(items) => DisplayItems(items)
    case Obj(_) => "[object Object]"
  }

  /** `Array.prototype.toString`: elements joined by commas, with null and
      undefined shown as empty. */
  function DisplayItems(items: seq<JsValue>): string
    decreases items, 0
  {
    if items == [] then ""
    else
      var head := if items[0].Undefined? || items[0].Null? then "" else Display(items[0]);
      if |items| == 1 then head else head + "," + DisplayItems(items[1..])
  }
}
