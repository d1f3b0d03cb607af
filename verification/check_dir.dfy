/** The directory normalisation of src/utils/check.js: `checkDir` walks a directory
    value (a path, a list of them or a map of them) and normalises every path; the
    `directory` check applies it to the `directory` argument of a command.
    `path.join` is a parameter; `path.isAbsolute` on a path is a leading `/`. */
module CheckDir {
  import opened JsValue

  /** What `path.isAbsolute` throws when its argument is not a string. */
  const PathTypeError: string := "TypeError: The \"path\" argument must be of type string. Received undefined"

  /** The walk `checkDir(directory)` makes (src/utils/check.js:3-26): a falsy value
      becomes the working directory; arrays and objects are normalised element by
      element; a non-empty string goes through `leaf`. Any other truthy value has no
      first character, so `path.isAbsolute(undefined)` throws. */
  function Walk(v: Value, cwd: string, leaf: string -> string): (r: Result<Value>)
    ensures !Truthy(v) ==> r == Ok(Str(cwd))
    ensures v.Str? && v.s != "" ==> r == Ok(Str(leaf(v.s)))
    ensures r.Throw? <==> Throws(v)
    ensures r.Ok? && v.Arr? ==>
              (r.value.Arr? && |r.value.elems| == |v.elems|
               && forall i :: 0 <= i < |v.elems| ==> Ok(r.value.elems[i]) == Walk(v.elems[i], cwd, leaf))
    ensures r.Ok? && v.Obj? ==>
              (r.value.Obj? && r.value.proto == v.proto && r.value.props.Keys == v.props.Keys
               && forall k :: k in v.props ==> Ok(r.value.props[k]) == Walk(v.props[k], cwd, leaf))
    decreases v, 1, 0
  {
    if !Truthy(v) then Ok(Str(cwd))
    else match v
      case Arr(elems) =>
        (match WalkElems(v, elems, cwd, leaf)
         case Throw(m) => Throw(m)
         case Ok(normalised) => Ok(Arr(normalised)))
      case Obj(props, proto) =>
        if exists k :: k in props && Walk(props[k], cwd, leaf).Throw? then Throw(PathTypeError)
        else Ok(Obj(map k | k in props :: Walk(props[k], cwd, leaf).value, proto))
      case Str(s) => Ok(Str(leaf(s)))
      case _ => Throw(PathTypeError)
  }

  /** The `forEach` over an array's elements. */
  function WalkElems(v: Value, elems: seq<Value>, cwd: string, leaf: string -> string): (r: Result<seq<Value>>)
    requires forall i :: 0 <= i < |elems| ==> elems[i] < v
    ensures r.Throw? <==> exists i :: 0 <= i < |elems| && Throws(elems[i])
    ensures r.Throw? ==> r.message == PathTypeError
    ensures r.Ok? ==> |r.value| == |elems| && forall i :: 0 <= i < |elems| ==> Ok(r.value[i]) == Walk(elems[i], cwd, leaf)
    decreases v, 0, |elems|
  {
    if elems == [] then Ok([])
    else
      var head := Walk(elems[0], cwd, leaf);
      var tail := WalkElems(v, elems[1..], cwd, leaf);
      assert forall i :: 1 <= i < |elems| ==> elems[i] == elems[1..][i - 1];
      if head.Throw? || tail.Throw? then Throw(PathTypeError)
      else Ok([head.value] + tail.value)
  }

  /** The string rule as written: a path whose first character is `/` is joined onto
      the working directory, and any other string is kept. */
  function AsWrittenLeaf(cwd: string, join: (string, string) -> string): string -> string
  {
    s => if s != [] && s[0] == '/' then join(cwd, s) else s
  }

  /** The string rule as intended: relative paths are resolved against the working
      directory and absolute ones are kept. */
  function IntendedLeaf(cwd: string, join: (string, string) -> string): string -> string
  {
    s => if s != [] && s[0] == '/' then s else join(cwd, s)
  }

  /** `checkDir(directory)` as written. */
  function CheckDirAsWritten(v: Value, cwd: string, join: (string, string) -> string): Result<Value>
  {
    Walk(v, cwd, AsWrittenLeaf(cwd, join))
  }

  /** A relative directory is never resolved, and an absolute one is rewritten under the
      working directory. */
  lemma AsWrittenJoinsAbsolutePaths(cwd: string, join: (string, string) -> string)
    ensures CheckDirAsWritten(Str("src"), cwd, join) == Ok(Str("src"))
    ensures CheckDirAsWritten(Str("/srv/app"), cwd, join) == Ok(Str(join(cwd, "/srv/app")))
    ensures CheckDirAsWritten(Str("/srv/app"), "/w", SimpleJoin) == Ok(Str("/w/srv/app"))
  {
    assert "/srv/app"[1..] == "srv/app";
    assert SimpleJoin("/w", "/srv/app") == "/w" + "/" + "srv/app";
    assert "/w" + "/" + "srv/app" == "/w/srv/app";
  }

  /** `path.join(a, b)` for paths free of `.` and `..` segments and of repeated or
      trailing slashes. */
  function SimpleJoin(a: string, b: string): string
  {
    a + "/" + (if b != [] && b[0] == '/' then b[1..] else b)
  }

  /** `checkDir(directory)` as intended. */
  function CheckDirPath(v: Value, cwd: string, join: (string, string) -> string): (r: Result<Value>)
    ensures v.Str? && v.s != "" && v.s[0] == '/' ==> r == Ok(v)
    ensures v.Str? && v.s != "" && v.s[0] != '/' ==> r == Ok(Str(join(cwd, v.s)))
  {
    Walk(v, cwd, IntendedLeaf(cwd, join))
  }

  /** The intended rule keeps absolute paths and resolves relative ones. */
  lemma IntendedResolvesRelativePaths(cwd: string, join: (string, string) -> string)
    ensures CheckDirPath(Str("src"), cwd, join) == Ok(Str(join(cwd, "src")))
    ensures CheckDirPath(Str("/srv/app"), cwd, join) == Ok(Str("/srv/app"))
  {
  }

  /** The values normalisation rejects: a truthy value that is neither a string, an array
      nor an object, anywhere inside arrays and objects. */
  predicate Throws(v: Value)
    decreases v
  {
    match v
    case Arr(elems) => exists i :: 0 <= i < |elems| && Throws(elems[i])
    case Obj(props, _) => exists k :: k in props && Throws(props[k])
    case Str(_) => false
    case _ => Truthy(v)
  }

  /** A value that holds only absolute paths (and no falsy leaf). */
  predicate Normal(v: Value)
    decreases v
  {
    match v
    case Arr(elems) => forall i :: 0 <= i < |elems| ==> Normal(elems[i])
    case Obj(props, _) => forall k :: k in props ==> Normal(props[k])
    case Str(s) => s != "" && s[0] == '/'
    case _ => false
  }

  /** With an absolute working directory and a join that keeps the first path's leading
      `/`, normalising yields only absolute paths, and normalising again changes nothing. */
  lemma {:induction false} CheckDirIdempotent(v: Value, cwd: string, join: (string, string) -> string)
    requires cwd != "" && cwd[0] == '/'
    requires forall a, b :: a != "" && a[0] == '/' ==> join(a, b) != "" && join(a, b)[0] == '/'
    requires CheckDirPath(v, cwd, join).Ok?
    ensures Normal(CheckDirPath(v, cwd, join).value)
    ensures CheckDirPath(CheckDirPath(v, cwd, join).value, cwd, join) == CheckDirPath(v, cwd, join)
    decreases v
  {
    var r := CheckDirPath(v, cwd, join).value;
    if !Truthy(v) {
    } else {
      match v
      case Arr(elems) =>
        forall i | 0 <= i < |elems| ensures Normal(r.elems[i]) && CheckDirPath(r.elems[i], cwd, join) == Ok(r.elems[i]) {
          CheckDirIdempotent(elems[i], cwd, join);
        }
        NormalFixed(r, cwd, join);
      case Obj(props, proto) =>
        forall k | k in props ensures Normal(r.props[k]) && CheckDirPath(r.props[k], cwd, join) == Ok(r.props[k]) {
          CheckDirIdempotent(props[k], cwd, join);
        }
        NormalFixed(r, cwd, join);
      case Str(s) =>
      case _ =>
    }
  }

  /** Normalisation leaves a value that holds only absolute paths as it is. */
  lemma {:induction false} NormalFixed(v: Value, cwd: string, join: (string, string) -> string)
    requires Normal(v)
    ensures CheckDirPath(v, cwd, join) == Ok(v)
    decreases v
  {
    match v
    case Arr(elems) =>
      forall i | 0 <= i < |elems| ensures CheckDirPath(elems[i], cwd, join) == Ok(elems[i]) {
        NormalFixed(elems[i], cwd, join);
      }
      assert CheckDirPath(v, cwd, join).value.elems == elems;
    case Obj(props, proto) =>
      forall k | k in props ensures CheckDirPath(props[k], cwd, join) == Ok(props[k]) {
        NormalFixed(props[k], cwd, join);
      }
      assert CheckDirPath(v, cwd, join).value.props == props;
    case Str(s) =>
  }

  /** What the walk leaves where the caller can see it (src/utils/check.js:10-19): arrays
      and objects are rewritten element by element in place, so when a later element
      throws, the earlier ones already hold their normal form. The state is the value the
      caller ends with: the returned value, or the partly rewritten original. */
  function WalkInPlace(v: Value, cwd: string, leaf: string -> string): (r: Outcome<Value>)
    ensures r.completion.Thrown? ==> r.completion == Thrown(PathTypeError)
    decreases v, 1, 0
  {
    if !Truthy(v) then Outcome(Str(cwd), JsValue.Normal)
    else match v
      case Arr(elems) =>
        var o := WalkElemsInPlace(v, elems, cwd, leaf);
        Outcome(Arr(o.state), o.completion)
      case Obj(props, proto) =>
        var o := WalkPropsInPlace(v, props, SortedProps(props), props, cwd, leaf);
        Outcome(Obj(o.state, proto), o.completion)
      case Str(s) => Outcome(Str(leaf(s)), JsValue.Normal)
      case _ => Outcome(v, Thrown(PathTypeError))
  }

  /** The array `forEach`: each element is replaced by its normal form in turn; an element
      that throws keeps whatever was rewritten inside it, and the rest are not reached. */
  function WalkElemsInPlace(v: Value, elems: seq<Value>, cwd: string, leaf: string -> string): (r: Outcome<seq<Value>>)
    requires forall i :: 0 <= i < |elems| ==> elems[i] < v
    ensures |r.state| == |elems|
    ensures r.completion.Thrown? ==> r.completion == Thrown(PathTypeError)
    decreases v, 0, |elems|
  {
    if elems == [] then Outcome([], JsValue.Normal)
    else
      var head := WalkInPlace(elems[0], cwd, leaf);
      if head.completion.Thrown? then Outcome([head.state] + elems[1..], head.completion)
      else
        assert forall i :: 1 <= i < |elems| ==> elems[1..][i - 1] == elems[i];
        var tail := WalkElemsInPlace(v, elems[1..], cwd, leaf);
        Outcome([head.state] + tail.state, tail.completion)
  }

  /** The `Object.keys(...).forEach` over `keys`, writing into `acc`. */
  function WalkPropsInPlace(v: Value, props: map<string, Value>, keys: seq<string>, acc: map<string, Value>,
                            cwd: string, leaf: string -> string): (r: Outcome<map<string, Value>>)
    requires forall i :: 0 <= i < |keys| ==> keys[i] in props && props[keys[i]] < v
    ensures r.completion.Thrown? ==> r.completion == Thrown(PathTypeError)
    decreases v, 0, |keys|
  {
    if keys == [] then Outcome(acc, JsValue.Normal)
    else
      var o := WalkInPlace(props[keys[0]], cwd, leaf);
      if o.completion.Thrown? then Outcome(acc[keys[0] := o.state], o.completion)
      else WalkPropsInPlace(v, props, keys[1..], acc[keys[0] := o.state], cwd, leaf)
  }

  /** The walk in place completes exactly when `Walk` returns, and then leaves its value. */
  lemma {:induction false} InPlaceAgrees(v: Value, cwd: string, leaf: string -> string)
    ensures var o := WalkInPlace(v, cwd, leaf);
            var r := Walk(v, cwd, leaf);
            (o.completion.Normal? <==> r.Ok?) && (r.Ok? ==> o.state == r.value)
    decreases v, 2, 0
  {
    if Truthy(v) {
      match v
      case Arr(elems) =>
        ElemsInPlaceAgree(v, elems, cwd, leaf);
      case Obj(props, proto) =>
        ObjInPlaceAgree(v, cwd, leaf);
      case Str(s) =>
      case _ =>
    }
  }

  lemma {:induction false} ObjInPlaceAgree(v: Value, cwd: string, leaf: string -> string)
    requires v.Obj? && Truthy(v)
    ensures var o := WalkInPlace(v, cwd, leaf);
            var r := Walk(v, cwd, leaf);
            (o.completion.Normal? <==> r.Ok?) && (r.Ok? ==> o.state == r.value)
    decreases v, 1, 0
  {
    var props := v.props;
    var keys := SortedProps(props);
    PropsInPlaceAgree(v, props, keys, props, cwd, leaf);
    var o := WalkPropsInPlace(v, props, keys, props, cwd, leaf);
    ObjWalkAll(v, keys, cwd, leaf);
    if o.completion.Normal? {
      ObjWalkValue(v, keys, o.state, cwd, leaf);
    }
  }

  /** The object branch of `Walk` returns exactly when every key's value does. */
  lemma ObjWalkAll(v: Value, keys: seq<string>, cwd: string, leaf: string -> string)
    requires v.Obj? && Truthy(v)
    requires forall k :: k in keys <==> k in v.props
    ensures Walk(v, cwd, leaf).Ok? <==> forall i :: 0 <= i < |keys| ==> Walk(v.props[keys[i]], cwd, leaf).Ok?
  {
  }

  /** A map holding every key's normal form is what the object branch of `Walk` returns. */
  lemma ObjWalkValue(v: Value, keys: seq<string>, m: map<string, Value>, cwd: string, leaf: string -> string)
    requires v.Obj? && Truthy(v)
    requires forall k :: k in keys <==> k in v.props
    requires forall i :: 0 <= i < |keys| ==> Walk(v.props[keys[i]], cwd, leaf).Ok?
    requires m.Keys == v.props.Keys + (set i | 0 <= i < |keys| :: keys[i])
    requires forall k :: k in m ==> m[k] == if k in keys then Walk(v.props[k], cwd, leaf).value else v.props[k]
    ensures Walk(v, cwd, leaf) == Ok(Obj(m, v.proto))
  {
    var props := v.props;
    assert m.Keys == props.Keys;
    forall k | k in props ensures Walk(props[k], cwd, leaf).Ok? && m[k] == Walk(props[k], cwd, leaf).value {
      var i :| 0 <= i < |keys| && keys[i] == k;
    }
    var n := map k | k in props :: Walk(props[k], cwd, leaf).value;
    assert m == n;
    assert !exists k :: k in props && Walk(props[k], cwd, leaf).Throw?;
  }

  lemma {:induction false} ElemsInPlaceAgree(v: Value, elems: seq<Value>, cwd: string, leaf: string -> string)
    requires forall i :: 0 <= i < |elems| ==> elems[i] < v
    ensures var o := WalkElemsInPlace(v, elems, cwd, leaf);
            var r := WalkElems(v, elems, cwd, leaf);
            (o.completion.Normal? <==> r.Ok?) && (r.Ok? ==> o.state == r.value)
    decreases v, 0, |elems|
  {
    if elems != [] {
      InPlaceAgrees(elems[0], cwd, leaf);
      ElemsInPlaceAgree(v, elems[1..], cwd, leaf);
    }
  }

  lemma {:induction false} PropsInPlaceAgree(v: Value, props: map<string, Value>, keys: seq<string>, acc: map<string, Value>,
                                             cwd: string, leaf: string -> string)
    requires forall i :: 0 <= i < |keys| ==> keys[i] in props && props[keys[i]] < v
    ensures var o := WalkPropsInPlace(v, props, keys, acc, cwd, leaf);
            (o.completion.Normal? <==> forall i :: 0 <= i < |keys| ==> Walk(props[keys[i]], cwd, leaf).Ok?)
            && (o.completion.Normal? ==>
                  o.state.Keys == acc.Keys + (set i | 0 <= i < |keys| :: keys[i])
                  && forall k :: k in o.state ==> o.state[k] == if k in keys then Walk(props[k], cwd, leaf).value else acc[k])
    decreases v, 0, |keys|
  {
    if keys != [] {
      InPlaceAgrees(props[keys[0]], cwd, leaf);
      var o := WalkInPlace(props[keys[0]], cwd, leaf);
      if o.completion.Normal? {
        var acc' := acc[keys[0] := o.state];
        PropsInPlaceAgree(v, props, keys[1..], acc', cwd, leaf);
        assert forall i :: 1 <= i < |keys| ==> keys[1..][i - 1] == keys[i];
        assert forall k :: k in keys <==> k == keys[0] || k in keys[1..];
      }
    }
  }

  /** `['/x', 5]` with the working directory `/w`: the first element is rewritten to
      `/w/x` before the second throws. */
  lemma PartialRewrite()
    ensures WalkInPlace(Arr([Str("/x"), Num(5)]), "/w", AsWrittenLeaf("/w", SimpleJoin))
            == Outcome(Arr([Str("/w/x"), Num(5)]), Thrown(PathTypeError))
  {
    var leaf := AsWrittenLeaf("/w", SimpleJoin);
    var v := Arr([Str("/x"), Num(5)]);
    assert "/x"[1..] == "x";
    assert SimpleJoin("/w", "/x") == "/w/x";
    assert WalkInPlace(Str("/x"), "/w", leaf) == Outcome(Str("/w/x"), JsValue.Normal);
    assert WalkInPlace(Num(5), "/w", leaf) == Outcome(Num(5), Thrown(PathTypeError));
    assert [Str("/x"), Num(5)][1..] == [Num(5)];
    assert [Num(5)][1..] == [];
    var e: seq<Value> := [Num(5)];
    assert e[0] == Num(5);
    var h := WalkInPlace(e[0], "/w", leaf);
    assert h.completion.Thrown?;
    var t := WalkElemsInPlace(v, e, "/w", leaf);
    assert t == Outcome([h.state] + e[1..], h.completion);
    assert h == Outcome(Num(5), Thrown(PathTypeError));
    assert e[1..] == [];
    assert [h.state] + e[1..] == [Num(5)];
    assert t == Outcome([Num(5)], Thrown(PathTypeError));
    var all := WalkElemsInPlace(v, v.elems, "/w", leaf);
    assert v.elems[1..] == e;
    assert all == Outcome([Str("/w/x")] + t.state, t.completion);
    assert [Str("/w/x")] + [Num(5)] == [Str("/w/x"), Num(5)];
  }

  /** The arguments of a command. */
  class Argv {
    var props: map<string, Value>

    constructor (props: map<string, Value>)
      ensures this.props == props
    {
      this.props := props;
    }

    /** `directory(cli, argv)` (src/utils/check.js:39-42), with the string rule as written:
        `argv.directory` and its alias `argv.d` both receive the normalised
        `argv.directory`. When normalisation throws, the assignment never happens, but the
        elements already rewritten inside `argv.directory` stay rewritten. */
    method CheckDirectory(cwd: string, join: (string, string) -> string) returns (c: Completion)
      modifies this
      ensures var o := WalkInPlace(Field(old(props), "directory"), cwd, AsWrittenLeaf(cwd, join));
              c == o.completion
              && props == if c.Normal? then old(props)["directory" := o.state]["d" := o.state]
                          else old(props)["directory" := o.state]
      ensures var r := CheckDirAsWritten(Field(old(props), "directory"), cwd, join);
              (c.Normal? <==> r.Ok?) && (r.Ok? ==> props["directory"] == r.value && props["d"] == r.value)
    {
      var v := Field(props, "directory");
      var o := WalkInPlace(v, cwd, AsWrittenLeaf(cwd, join));
      InPlaceAgrees(v, cwd, AsWrittenLeaf(cwd, join));
      if o.completion.Thrown? {
        props := props["directory" := o.state];
        return o.completion;
      }
      props := props["directory" := o.state]["d" := o.state];
      c := JsValue.Normal;
    }
  }
}
