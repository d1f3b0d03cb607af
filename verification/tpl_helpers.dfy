/** The two template helpers with logic of their own: `spaces` (tpl/helpers/spaces.js),
    which pads a value to the width of the widest item of a list, and `capitalize`
    (tpl/helpers/capitalize.js). */
module TplHelpers {
  import opened JsValue

  /** The length of `String(v)`. */
  function Width(v: Value): nat
  {
    |ToJsString(v)|
  }

  /** `Math.max(...xs)` over a non-empty list. */
  function Max(xs: seq<nat>): (m: nat)
    requires xs != []
    ensures forall i :: 0 <= i < |xs| ==> xs[i] <= m
    ensures exists i :: 0 <= i < |xs| && xs[i] == m
  {
    if |xs| == 1 then xs[0]
    else
      var rest := Max(xs[1..]);
      assert forall i :: 1 <= i < |xs| ==> xs[i] == xs[1..][i - 1];
      if xs[0] >= rest then xs[0] else rest
  }

  /** `' '.repeat(n)`. */
  function Blanks(n: nat): (r: string)
    ensures |r| == n
    ensures forall i :: 0 <= i < n ==> r[i] == ' '
  {
    if n == 0 then "" else Blanks(n - 1) + " "
  }

  /** `items.map(i => String(i[key]).length)`: reading a property of `null` or
      `undefined` throws, and the first such item ends the map. */
  function ItemWidths(items: seq<Value>, key: string): (r: Result<seq<nat>>)
    ensures r.Throw? <==> exists i :: 0 <= i < |items| && GetProp(items[i], key).Throw?
    ensures r.Ok? ==> |r.value| == |items|
                      && forall i :: 0 <= i < |items| ==> r.value[i] == Width(GetProp(items[i], key).value)
  {
    if items == [] then Ok([])
    else
      match GetProp(items[0], key)
      case Throw(m) => Throw(m)
      case Ok(v) =>
        var rest := ItemWidths(items[1..], key);
        assert forall i :: 1 <= i < |items| ==> items[i] == items[1..][i - 1];
        if rest.Throw? then
          assert exists i :: 0 <= i < |items| && GetProp(items[i], key).Throw? by {
            var j :| 0 <= j < |items[1..]| && GetProp(items[1..][j], key).Throw?;
            assert items[j + 1] == items[1..][j];
          }
          rest
        else Ok([Width(v)] + rest.value)
  }

  /** The value the helper prints when it does not pad: `String(this[property] || '')`. */
  function OwnText(context: map<string, Value>, key: string): string
  {
    var own := Field(context, key);
    ToJsString(if Truthy(own) then own else Str(""))
  }

  /** Whether the helper pads: the property is truthy and names a key of the context,
      and `items` is a non-empty array. */
  predicate Pads(context: map<string, Value>, items: Value, property: Value)
  {
    Truthy(property) && ToJsString(property) in context && items.Arr? && |items.elems| > 0
  }

  /** `spaces(items, property)` evaluated with `this` bound to `context`. When it pads,
      the result is only blanks, and the own value followed by it is exactly as wide as
      the widest item; when the own value is already wider, `repeat` gets a negative
      count and throws a RangeError. */
  function Spaces(context: map<string, Value>, items: Value, property: Value): (r: Result<string>)
    ensures !Pads(context, items, property) ==> r == Ok(OwnText(context, ToJsString(property)))
    ensures Pads(context, items, property) && r.Ok? ==>
              forall i :: 0 <= i < |r.value| ==> r.value[i] == ' '
    ensures Pads(context, items, property) && r.Ok? ==>
              var key := ToJsString(property);
              forall i :: 0 <= i < |items.elems| ==>
                GetProp(items.elems[i], key).Ok?
                && Width(GetProp(items.elems[i], key).value) <= |OwnText(context, key)| + |r.value|
    ensures Pads(context, items, property) && r.Ok? ==>
              var key := ToJsString(property);
              exists i :: 0 <= i < |items.elems|
                && Width(GetProp(items.elems[i], key).value) == |OwnText(context, key)| + |r.value|
    ensures Pads(context, items, property) && ItemWidths(items.elems, ToJsString(property)).Ok? ==>
              (r.Throw? <==> forall i :: 0 <= i < |items.elems| ==>
                 Width(GetProp(items.elems[i], ToJsString(property)).value) < |OwnText(context, ToJsString(property))|)
  {
    var key := ToJsString(property);
    var own := OwnText(context, key);
    if Pads(context, items, property) then
      match ItemWidths(items.elems, key)
      case Throw(m) => Throw(m)
      case Ok(widths) =>
        var widest := Max(widths);
        if widest < |own| then Throw("RangeError: Invalid count value: " + IntToString(widest - |own|))
        else Ok(Blanks(widest - |own|))
    else Ok(own)
  }

  /** `toUpperCase` on one character, for ASCII letters. */
  function UpperCase(c: char): (u: char)
    ensures !('a' <= u <= 'z')
    ensures 'a' <= c <= 'z' ==> u as int == c as int - 32
    ensures !('a' <= c <= 'z') ==> u == c
  {
    if 'a' <= c <= 'z' then (c as int - 32) as char else c
  }

  /** `capitalize(value)`: the first character of `String(value)` upper-cased, the rest
      unchanged; an empty text has no first character to upper-case, so it throws. */
  function Capitalize(value: Value): (r: Result<string>)
    ensures r.Throw? <==> ToJsString(value) == ""
    ensures r.Ok? ==> |r.value| == |ToJsString(value)|
    ensures r.Ok? ==> r.value[1..] == ToJsString(value)[1..]
    ensures r.Ok? ==> r.value[0] == UpperCase(ToJsString(value)[0])
  {
    var text := ToJsString(value);
    if text == "" then Throw("TypeError: Cannot read properties of undefined (reading 'toUpperCase')")
    else Ok([UpperCase(text[0])] + text[1..])
  }

  /** Capitalising a capitalised text changes nothing. */
  lemma CapitalizeIdempotent(value: Value)
    requires Capitalize(value).Ok?
    ensures Capitalize(Str(Capitalize(value).value)) == Capitalize(value)
  {
    var t := Capitalize(value).value;
    assert t[0] == UpperCase(t[0]);
    assert [t[0]] + t[1..] == t;
  }
}
