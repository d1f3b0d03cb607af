/** The JavaScript values that flow through the command-line core (configuration
    objects, option specifications, command tables, handler results), with the few
    language operations the core applies to them: truthiness, `String(v)`, property
    access, the `in` operator and `Object.keys`. */
module JsValue {
  import opened Text

  /** Which class an object is an instance of: a plain object literal, a
      `jfCliOption` (src/Option.js) or a `jfCliCommand` (src/Command.js). */
  datatype Proto = PlainObject | OptionProto | CommandProto

  /** Numbers are integers here; fractions, NaN and infinities are not modelled.
      A function carries the source text that `String(f)` would print. */
  datatype Value =
    | Undefined
    | Null
    | Bool(b: bool)
    | Num(n: int)
    | Str(s: string)
    | Arr(elems: seq<Value>)
    | Obj(props: map<string, Value>, proto: Proto)
    | Fn(text: string)

  datatype Optional<T> = None | Some(value: T)

  /** A computation that either returns a value or throws an exception with a message. */
  datatype Result<T> = Ok(value: T) | Throw(message: string)

  /** How a statement that returns nothing ends: normally or by throwing. */
  datatype Completion = Normal | Thrown(message: string)

  /** The state a sequence of statements leaves behind, and how it ended: an exception
      thrown part-way keeps the updates made before it. */
  datatype Outcome<T> = Outcome(state: T, completion: Completion)

  /** A plain object literal. */
  function Object(props: map<string, Value>): Value
  {
    Obj(props, PlainObject)
  }

  /** JavaScript truthiness: `undefined`, `null`, `false`, `0` and `''` are falsy. */
  predicate Truthy(v: Value)
  {
    match v
    case Undefined => false
    case Null => false
    case Bool(b) => b
    case Num(n) => n != 0
    case Str(s) => s != ""
    case _ => true
  }

  function DigitChar(d: nat): (c: char)
    requires d < 10
  {
    "0123456789"[d]
  }

  /** Decimal digits of a natural number. */
  function NatToString(n: nat): (r: string)
    ensures |r| >= 1
    ensures forall i :: 0 <= i < |r| ==> '0' <= r[i] <= '9'
  {
    if n < 10 then [DigitChar(n)] else NatToString(n / 10) + [DigitChar(n % 10)]
  }

  /** `String(n)` for an integer. */
  function IntToString(n: int): string
  {
    if n < 0 then "-" + NatToString(-n) else NatToString(n)
  }

  /** Property of a plain map, `undefined` when absent. */
  function Field(props: map<string, Value>, key: string): Value
  {
    if key in props then props[key] else Undefined
  }

  /** `String(v)`, which is also what template literals and `+ ''` produce.
      An option instance prints through its own `toString` (src/Option.js:146-163):
      `name|description|alias`, then the type when it is not `'boolean'`, then an empty
      default field when the option is not required. */
  function ToJsString(v: Value): string
    decreases v, 1
  {
    match v
    case Undefined => "undefined"
    case Null => "null"
    case Bool(b) => if b then "true" else "false"
    case Num(n) => IntToString(n)
    case Str(s) => s
    case Arr(elems) => Join(seq(|elems|, i requires 0 <= i < |elems| => JoinCell(elems[i])), ",")
    case Fn(text) => text
    case Obj(props, proto) =>
      if proto == OptionProto then
        var cell := (k: string) => if k in props then JoinCell(props[k]) else "";
        var head := [cell("name"), cell("description"), cell("alias")];
        var tail :=
          if Field(props, "type") == Str("boolean") then []
          else [cell("type")] + (if Truthy(Field(props, "required")) then [] else [""]);
        Join(head + tail, "|")
      else "[object Object]"
  }

  /** How `Array.prototype.join` prints one element: `null` and `undefined` become `''`. */
  function JoinCell(v: Value): string
    decreases v, 2
  {
    if v == Undefined || v == Null then "" else ToJsString(v)
  }

  /** The array index a property key names, if it is one. */
  function ArrayIndex(key: string): Optional<nat>
  {
    if key == [] || (|key| > 1 && key[0] == '0') || exists i :: 0 <= i < |key| && !('0' <= key[i] <= '9')
    then None
    else Some(DigitsValue(key))
  }

  function DigitsValue(key: string): nat
    requires forall i :: 0 <= i < |key| ==> '0' <= key[i] <= '9'
  {
    if key == [] then 0
    else 10 * DigitsValue(key[..|key| - 1]) + (key[|key| - 1] as int - '0' as int)
  }

  /** `v[key]`: reading a property. Reading from `null` or `undefined` throws a TypeError.
      Members inherited from prototypes (`toString`, `constructor`, ...) are not modelled. */
  function GetProp(v: Value, key: string): (r: Result<Value>)
    ensures r.Throw? <==> v == Undefined || v == Null
    ensures v.Obj? ==> r == Ok(Field(v.props, key))
  {
    match v
    case Undefined => Throw("TypeError: Cannot read properties of undefined (reading '" + key + "')")
    case Null => Throw("TypeError: Cannot read properties of null (reading '" + key + "')")
    case Obj(props, _) => Ok(Field(props, key))
    case Arr(elems) =>
      if key == "length" then Ok(Num(|elems|))
      else (match ArrayIndex(key)
            case Some(i) => if i < |elems| then Ok(elems[i]) else Ok(Undefined)
            case None => Ok(Undefined))
    case Str(s) =>
      if key == "length" then Ok(Num(|s|))
      else (match ArrayIndex(key)
            case Some(i) => if i < |s| then Ok(Str([s[i]])) else Ok(Undefined)
            case None => Ok(Undefined))
    case _ => Ok(Undefined)
  }

  /** `key in v`: the `in` operator, which throws a TypeError on a primitive. */
  function HasProp(v: Value, key: string): (r: Result<bool>)
    ensures r.Throw? <==> !(v.Obj? || v.Arr? || v.Fn?)
    ensures v.Obj? ==> r == Ok(key in v.props)
  {
    match v
    case Obj(props, _) => Ok(key in props)
    case Arr(elems) =>
      Ok(key == "length" || (ArrayIndex(key).Some? && ArrayIndex(key).value < |elems|))
    case Fn(_) => Ok(key == "length" || key == "name")
    case _ => Throw("TypeError: Cannot use 'in' operator to search for '" + key + "'")
  }

  /** `Object.keys(o).sort()` for an object. */
  function SortedProps(props: map<string, Value>): (r: seq<string>)
    ensures |r| == |props|
    ensures forall k :: k in r <==> k in props
    ensures StrictlySorted(r)
  {
    SortedKeys(props.Keys)
  }
}
