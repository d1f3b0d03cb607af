/** The two object helpers of src/utils: `isObject` (is-object.js) and the sorted,
    short-circuiting key iterator `iterate` (iterate.js). A callback is a function from
    a key and its value to the JavaScript value it returns; only its truthiness matters. */
module ObjectUtils {
  import opened Text
  import opened JsValue

  /** `value && typeof value === 'object' && !Array.isArray(value)`: a falsy input comes
      back unchanged, anything else becomes a boolean that is true exactly for objects. */
  function IsObject(v: Value): (r: Value)
    ensures !Truthy(v) ==> r == v
    ensures Truthy(v) ==> r == Bool(v.Obj?)
    ensures Truthy(r) <==> v.Obj?
  {
    if !Truthy(v) then v
    else match v
      case Obj(_, _) => Bool(true)
      case _ => Bool(false)
  }

  /** `keys.every(k => cb(k, props[k]))`. */
  function Every(keys: seq<string>, props: map<string, Value>, cb: (string, Value) -> Value): (r: bool)
    requires forall i :: 0 <= i < |keys| ==> keys[i] in props
    ensures r <==> forall i :: 0 <= i < |keys| ==> Truthy(cb(keys[i], props[keys[i]]))
  {
    if keys == [] then true
    else if !Truthy(cb(keys[0], props[keys[0]])) then false
    else
      var rest := Every(keys[1..], props, cb);
      assert forall i :: 1 <= i < |keys| ==> keys[i] == keys[1..][i - 1];
      rest
  }

  /** The keys on which `every` calls the callback: up to and including the first
      falsy answer. */
  function Calls(keys: seq<string>, props: map<string, Value>, cb: (string, Value) -> Value): (r: seq<string>)
    requires forall i :: 0 <= i < |keys| ==> keys[i] in props
    ensures r <= keys
    ensures forall i :: 0 <= i < |r| - 1 ==> Truthy(cb(r[i], props[r[i]]))
    ensures |r| < |keys| ==> r != [] && !Truthy(cb(r[|r| - 1], props[r[|r| - 1]]))
    ensures Every(keys, props, cb) <==> r == keys && (r == [] || Truthy(cb(r[|r| - 1], props[r[|r| - 1]])))
  {
    if keys == [] then []
    else if !Truthy(cb(keys[0], props[keys[0]])) then [keys[0]]
    else
      var rest := Calls(keys[1..], props, cb);
      assert keys == [keys[0]] + keys[1..];
      [keys[0]] + rest
  }

  /** `iterate(object, cb)`: false for anything that is not an object; otherwise the
      callback visits the keys in ascending order and the result says whether every
      answer was truthy. */
  function Iterate(v: Value, cb: (string, Value) -> Value): (r: bool)
    ensures !v.Obj? ==> !r
    ensures v.Obj? ==> (r <==> forall k :: k in v.props ==> Truthy(cb(k, v.props[k])))
  {
    if Truthy(IsObject(v)) then
      var keys := SortedProps(v.props);
      var r := Every(keys, v.props, cb);
      assert forall k :: k in v.props ==> exists i :: 0 <= i < |keys| && keys[i] == k;
      r
    else false
  }

  /** The keys `iterate` passes to the callback, in call order. */
  function IterateCalls(v: Value, cb: (string, Value) -> Value): (r: seq<string>)
  {
    if v.Obj? then Calls(SortedProps(v.props), v.props, cb) else []
  }

  /** Nothing that is not an object reaches the callback. */
  lemma IterateNonObject(v: Value, cb: (string, Value) -> Value)
    requires !v.Obj?
    ensures IterateCalls(v, cb) == [] && !Iterate(v, cb)
  {
  }

  /** The callback sees the keys in strictly ascending order, a prefix of all the keys,
      and stops right after the first falsy answer; an empty object gives true. */
  lemma {:induction false} IterateOrder(v: Value, cb: (string, Value) -> Value)
    requires v.Obj?
    ensures IterateCalls(v, cb) <= SortedProps(v.props)
    ensures StrictlySorted(IterateCalls(v, cb))
    ensures var r := IterateCalls(v, cb);
            |r| < |v.props| ==> r != [] && !Truthy(cb(r[|r| - 1], v.props[r[|r| - 1]]))
    ensures v.props == map[] ==> Iterate(v, cb)
  {
    PrefixStrictlySorted(SortedProps(v.props), IterateCalls(v, cb));
  }

  lemma PrefixStrictlySorted(xs: seq<string>, p: seq<string>)
    requires StrictlySorted(xs) && p <= xs
    ensures StrictlySorted(p)
  {
    assert forall i :: 0 <= i < |p| ==> p[i] == xs[i];
  }

  /** A callback that never answers truthily is called exactly once, on the smallest key. */
  lemma {:induction false} IterateFalsyStopsAtFirst(v: Value, cb: (string, Value) -> Value)
    requires v.Obj? && v.props != map[]
    requires forall k, x :: !Truthy(cb(k, x))
    ensures IterateCalls(v, cb) == [Least(v.props.Keys)]
  {
    var keys := SortedProps(v.props);
    assert keys[0] == Least(v.props.Keys);
  }
}
