/** JavaScript values as the console's code sees them once JSON has been parsed,
    with the few coercions the code relies on: truthiness, `||`, `??`,
    property reads, `String(v)` and the `+` operator. Numbers are integers. */
module JsValues {

  datatype Option<+T> = None | Some(value: T)

  datatype Val =
    | Undefined
    | Null
    | Bool(b: bool)
    | Num(n: int)
    | Str(s: string)
    | Arr(elems: seq<Val>)
    | Obj(fields: map<string, Val>)

  /** `!!v`: undefined, null, false, 0 and "" are falsy; every array and object is truthy. */
  predicate Truthy(v: Val) {
    match v
    case Undefined => false
    case Null => false
    case Bool(b) => b
    case Num(n) => n != 0
    case Str(s) => s != ""
    case Arr(_) => true
    case Obj(_) => true
  }

  predicate Nullish(v: Val) {
    v.Undefined? || v.Null?
  }

  /** `a || b` */
  function Or(a: Val, b: Val): Val {
    if Truthy(a) then a else b
  }

  /** `a ?? b` */
  function Coalesce(a: Val, b: Val): Val {
    if Nullish(a) then b else a
  }

  /** `v?.[key]`: an object's own field, and undefined for anything else. On
      `null` and `undefined` this is what `?.` gives (plain `v[key]` throws).
      Strings and arrays read as having no properties here, although in
      JavaScript they carry `length` and their indices. */
  function Field(v: Val, key: string): Val {
    if v.Obj? && key in v.fields then v.fields[key] else Undefined
  }

  /** `Array.isArray(v) ? v : []` */
  function ArrayOrEmpty(v: Val): seq<Val> {
    if v.Arr? then v.elems else []
  }

  function DigitChar(d: nat): char
    requires d < 10
  {
    "0123456789"[d]
  }

  function NatToString(n: nat): (r: string)
    ensures r != []
    decreases n
  {
    if n < 10 then [DigitChar(n)] else NatToString(n / 10) + [DigitChar(n % 10)]
  }

  /** `String(n)` for an integer. */
  function IntToString(n: int): (r: string)
    ensures r != []
  {
    if n < 0 then "-" + NatToString(-n) else NatToString(n)
  }

  /** `String(v)`. Arrays use `Array.prototype.join(",")`, which writes null and
      undefined elements as empty strings. */
  function ToJsString(v: Val): string
    decreases v, 1
  {
    match v
    case Undefined => "undefined"
    case Null => "null"
    case Bool(b) => if b then "true" else "false"
    case Num(n) => IntToString(n)
    case Str(s) => s
    case Arr(es) => JoinElements(v, es, ",")
    case Obj(_) => "[object Object]"
  }

  /** `es.join(sep)` for the elements `es` of the array `whole`. */
  function JoinElements(ghost whole: Val, es: seq<Val>, sep: string): string
    requires whole.Arr? && es <= whole.elems
    decreases whole, 0, |es|
  {
    if es == [] then ""
    else
      var last := es[|es| - 1];
      assert last in whole.elems;
      var prefix := JoinElements(whole, es[..|es| - 1], sep);
      var item := if Nullish(last) then "" else ToJsString(last);
      if |es| == 1 then item else prefix + sep + item
  }

  /** `ToNumber(v)` for the values that have an integer meaning. */
  function ToNumber(v: Val): int
    requires v.Null? || v.Bool? || v.Num?
  {
    match v
    case Null => 0
    case Bool(b) => if b then 1 else 0
    case Num(n) => n
  }

  /** Whether `+` concatenates: some operand is, or converts to, a string. */
  predicate Concatenates(a: Val, b: Val) {
    a.Str? || a.Arr? || a.Obj? || b.Str? || b.Arr? || b.Obj?
  }

  /** The `+` operator. An undefined operand would give NaN, which is not
      modelled, so it is excluded. */
  function Plus(a: Val, b: Val): (r: Val)
    requires !a.Undefined? && !b.Undefined?
    ensures r.Str? <==> Concatenates(a, b)
    ensures a.Num? && b.Num? ==> r == Num(a.n + b.n)
  {
    if Concatenates(a, b) then Str(ToJsString(a) + ToJsString(b))
    else Num(ToNumber(a) + ToNumber(b))
  }
}
