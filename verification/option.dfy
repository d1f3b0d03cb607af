/** A command option (src/Option.js): a one-letter name, a long alias, a description,
    a type, a default value and a required flag, built from a pipe-separated string
    `name|description|alias|type|default` or from an object of field values. */
module Options {
  import opened Text
  import opened JsValue
  import opened ObjectUtils

  /** The six own fields of an option instance; `kind` is the field the source calls `type`. */
  datatype OptionData = OptionData(alias: Value, default: Value, description: Value, name: Value, required: Value, kind: Value)
  {
    /** The instance as a JavaScript object. */
    function AsValue(): (v: Value)
      ensures v.Obj? && v.proto == OptionProto && v.props.Keys == FieldNames
    {
      Obj(map["alias" := alias, "default" := default, "description" := description,
              "name" := name, "required" := required, "type" := kind], OptionProto)
    }

    /** `this[field]` for one of the six fields. */
    function Get(field: string): Value
      requires field in FieldNames
    {
      match field
      case "alias" => alias
      case "default" => default
      case "description" => description
      case "name" => name
      case "required" => required
      case "type" => kind
    }

    /** `this[field] = v` for one of the six fields. */
    function With(field: string, v: Value): (d: OptionData)
      requires field in FieldNames
      ensures d.Get(field) == v
      ensures forall f :: f in FieldNames && f != field ==> d.Get(f) == Get(f)
    {
      match field
      case "alias" => this.(alias := v)
      case "default" => this.(default := v)
      case "description" => this.(description := v)
      case "name" => this.(name := v)
      case "required" => this.(required := v)
      case "type" => this.(kind := v)
    }
  }

  const FieldNames: set<string> := {"alias", "default", "description", "name", "required", "type"}

  /** The field values a new instance starts with (src/Option.js:24-55). */
  const Defaults: OptionData := OptionData(Str(""), Null, Str(""), Str(""), Bool(false), Str("boolean"))

  /** `option.toString()`. */
  function OptionText(d: OptionData): string
  {
    ToJsString(d.AsValue())
  }

  /** The fields `toString` joins, for an option whose printed fields are strings. */
  function TextPieces(d: OptionData): seq<string>
    requires d.name.Str? && d.description.Str? && d.alias.Str? && d.kind.Str?
  {
    [d.name.s, d.description.s, d.alias.s]
    + (if d.kind.s == "boolean" then [] else [d.kind.s] + (if Truthy(d.required) then [] else [""]))
  }

  /** For string fields, `toString` emits `name|description|alias`, adds the type only for
      a non-boolean option, and then an empty default field only when it is not required. */
  lemma ToStringShape(d: OptionData)
    requires d.name.Str? && d.description.Str? && d.alias.Str? && d.kind.Str?
    ensures OptionText(d) == Join(TextPieces(d), "|")
  {
    var props := d.AsValue().props;
    assert JoinCell(props["name"]) == d.name.s;
    assert JoinCell(props["description"]) == d.description.s;
    assert JoinCell(props["alias"]) == d.alias.s;
    assert JoinCell(props["type"]) == d.kind.s;
  }

  /** The `i`-th positional field of a split configuration; `None` is `undefined`. */
  function Piece(parts: seq<string>, i: nat): Optional<string>
  {
    if i < |parts| then Some(parts[i]) else None
  }

  /** A truthy string field: present and not empty. */
  predicate Given(p: Optional<string>)
  {
    p.Some? && p.value != ""
  }

  /** Whether the name and the alias trade places: an alias is given and the name is
      longer than it. */
  predicate Swaps(parts: seq<string>)
    requires |parts| >= 1
  {
    Given(Piece(parts, 2)) && |parts[0]| > |Piece(parts, 2).value|
  }

  /** The name after the swap. */
  function ShortName(parts: seq<string>): string
    requires |parts| >= 1
  {
    if Swaps(parts) then Piece(parts, 2).value else parts[0]
  }

  /** The alias after the swap. */
  function LongName(parts: seq<string>): Optional<string>
    requires |parts| >= 1
  {
    if Swaps(parts) then Some(parts[0]) else Piece(parts, 2)
  }

  /** `parseString(config)` applied to an instance whose fields are `prev`: the new
      fields, or the exception it throws (src/Option.js:100-141). */
  function ParseOnto(prev: OptionData, config: string): (r: Result<OptionData>)
  {
    ParseParts(prev, Split(config, '|'), config)
  }

  /** `parseString` once `config` has been split into `parts`. */
  function ParseParts(prev: OptionData, parts: seq<string>, config: string): (r: Result<OptionData>)
    requires |parts| >= 1
  {
    var name := ShortName(parts);
    var alias := LongName(parts);
    if |name| > 1 then
      Throw("La opción corta debe usar un solo carácter: " + name + " -- " + config + ".")
    else
      var withName := prev.(name := Str(name));
      var withAlias := if Given(alias) && alias.value != name then withName.(alias := Str(alias.value)) else withName;
      var withDesc := if Given(Piece(parts, 1)) then withAlias.(description := Str(Piece(parts, 1).value)) else withAlias;
      var withType := if Given(Piece(parts, 3)) then withDesc.(kind := Str(Piece(parts, 3).value)) else withDesc;
      if Piece(parts, 4).None? then
        if withType.kind == Str("boolean") then Ok(withType.(default := Bool(false)))
        else Ok(withType.(required := Bool(true)))
      else
        Ok(withType.(default := Str(Piece(parts, 4).value)))
  }

  /** One step of copying an object configuration: key `k` is copied only when the
      instance already holds a defined value under it. */
  function CopyKey(d: OptionData, props: map<string, Value>, k: string): OptionData
    requires k in props
  {
    if k in FieldNames && d.Get(k) != Undefined then d.With(k, props[k]) else d
  }

  /** The callback of the object branch applied to the keys `ks`, in order. */
  function CopyKeys(d: OptionData, props: map<string, Value>, ks: seq<string>): OptionData
    requires forall i :: 0 <= i < |ks| ==> ks[i] in props
  {
    if ks == [] then d else CopyKey(CopyKeys(d, props, ks[..|ks| - 1]), props, ks[|ks| - 1])
  }

  /** The object branch as intended: every field named in the configuration whose
      current value is defined takes the configured value. */
  function CopyFields(d: OptionData, props: map<string, Value>): (r: OptionData)
    ensures forall f :: f in FieldNames ==>
      r.Get(f) == if f in props && d.Get(f) != Undefined then props[f] else d.Get(f)
  {
    var pick := (f: string) requires f in FieldNames =>
      if f in props && d.Get(f) != Undefined then props[f] else d.Get(f);
    OptionData(pick("alias"), pick("default"), pick("description"), pick("name"), pick("required"), pick("type"))
  }

  /** Copying distinct keys one at a time gives each field named among them its configured
      value, checked against the value it had before the copy started. */
  lemma {:induction false} CopyKeysFields(d: OptionData, props: map<string, Value>, ks: seq<string>, f: string)
    requires forall i :: 0 <= i < |ks| ==> ks[i] in props
    requires forall i, j :: 0 <= i < j < |ks| ==> ks[i] != ks[j]
    requires f in FieldNames
    ensures CopyKeys(d, props, ks).Get(f) == if f in ks && d.Get(f) != Undefined then props[f] else d.Get(f)
  {
    if ks != [] {
      var init := ks[..|ks| - 1];
      CopyKeysFields(d, props, init, f);
      assert f in ks <==> f in init || f == ks[|ks| - 1];
      if f == ks[|ks| - 1] {
        assert f !in init;
      }
    }
  }

  /** Copying every key of the configuration in ascending order is `CopyFields`. */
  lemma CopySortedKeys(d: OptionData, props: map<string, Value>)
    ensures CopyKeys(d, props, SortedProps(props)) == CopyFields(d, props)
  {
    var ks := SortedProps(props);
    var r := CopyKeys(d, props, ks);
    forall f | f in FieldNames ensures r.Get(f) == CopyFields(d, props).Get(f) {
      CopyKeysFields(d, props, ks, f);
    }
    assert r.alias == r.Get("alias") && r.default == r.Get("default") && r.description == r.Get("description");
    assert r.name == r.Get("name") && r.required == r.Get("required") && r.kind == r.Get("type");
  }

  /** The callback of src/Option.js:63-69 returns nothing, so `iterate` stops after it. */
  function CopyCallback(k: string, x: Value): Value
  {
    Undefined
  }

  /** The object branch as written (src/Option.js:59-71): `iterate` only reaches the keys
      before the first falsy callback result, and this callback is always falsy. */
  function CopyFieldsAsWritten(d: OptionData, props: map<string, Value>): OptionData
  {
    var calls := IterateCalls(Object(props), CopyCallback);
    IterateOrder(Object(props), CopyCallback);
    CopyKeys(d, props, calls)
  }

  /** As written only the smallest key is ever copied: `new Option({name: 'x', type: 'string'})`
      leaves the type `'boolean'`, where the intended copy makes it `'string'`. */
  lemma ObjectConfigStopsAfterFirstKey()
    ensures CopyFieldsAsWritten(Defaults, map["name" := Str("x"), "type" := Str("string")]).kind == Str("boolean")
    ensures FromValue(Object(map["name" := Str("x"), "type" := Str("string")])) == Ok(Defaults.(name := Str("x")))
    ensures CopyFields(Defaults, map["name" := Str("x"), "type" := Str("string")]).kind == Str("string")
  {
    var props := map["name" := Str("x"), "type" := Str("string")];
    AsWrittenExample();
    CorrectedExample();
    assert Truthy(IsObject(Object(props)));
    assert FromValue(Object(props)) == Ok(CopyFieldsAsWritten(Defaults, props));
  }

  lemma CorrectedExample()
    ensures CopyFields(Defaults, map["name" := Str("x"), "type" := Str("string")]).kind == Str("string")
  {
    assert CopyFields(Defaults, map["name" := Str("x"), "type" := Str("string")]).Get("type") == Str("string");
  }

  lemma AsWrittenExample()
    ensures CopyFieldsAsWritten(Defaults, map["name" := Str("x"), "type" := Str("string")])
            == Defaults.(name := Str("x"))
  {
    var props := map["name" := Str("x"), "type" := Str("string")];
    assert props.Keys == {"name", "type"};
    LeastNameType();
    assert Least(props.Keys) == "name";
    AsWrittenCopiesLeastKey(Defaults, props);
    assert CopyFieldsAsWritten(Defaults, props) == CopyKey(Defaults, props, "name");
    assert "name" in FieldNames;
    assert Defaults.Get("name") == Str("");
    assert CopyKey(Defaults, props, "name") == Defaults.With("name", Str("x"));
  }

  /** As written, a non-empty object configuration copies its smallest key only. */
  lemma AsWrittenCopiesLeastKey(d: OptionData, props: map<string, Value>)
    requires props != map[]
    ensures CopyFieldsAsWritten(d, props) == CopyKey(d, props, Least(props.Keys))
  {
    IterateFalsyStopsAtFirst(Object(props), CopyCallback);
    var calls := IterateCalls(Object(props), CopyCallback);
    assert calls == [Least(props.Keys)];
    assert calls[..0] == [];
    assert CopyKeys(d, props, calls) == CopyKey(CopyKeys(d, props, []), props, calls[0]);
  }

  lemma LeastNameType()
    ensures Least({"name", "type"}) == "name"
  {
    var least := Least({"name", "type"});
    assert Le(least, "name");
  }

  /** `new Option(config)` after the defaults are set (src/Option.js:57-76): falsy
      configurations leave the defaults, objects copy their smallest key only (as
      written), strings are parsed, and anything else is ignored. */
  function Configured(prev: OptionData, config: Value): (r: Result<OptionData>)
    ensures !Truthy(config) ==> r == Ok(prev)
    ensures config.Obj? && config.props == map[] ==> r == Ok(prev)
    ensures config.Obj? && config.props != map[] ==> r == Ok(CopyKey(prev, config.props, Least(config.props.Keys)))
    ensures config.Str? && config.s != "" ==> r == ParseOnto(prev, config.s)
    ensures config.Arr? || config.Fn? || config.Num? || config.Bool? ==> r == Ok(prev)
  {
    if !Truthy(config) then Ok(prev)
    else if Truthy(IsObject(config)) then
      if config.props != map[] then
        AsWrittenCopiesLeastKey(prev, config.props);
        Ok(CopyFieldsAsWritten(prev, config.props))
      else
        assert SortedProps(config.props) == [];
        Ok(CopyFieldsAsWritten(prev, config.props))
    else if config.Str? then ParseOnto(prev, config.s)
    else Ok(prev)
  }

  /** The fields of `new Option(config)`, or the exception the constructor throws. */
  function FromValue(config: Value): Result<OptionData>
  {
    Configured(Defaults, config)
  }

  /** The fields of `new Option(text)` for a string configuration. */
  function FromString(text: string): Result<OptionData>
  {
    FromValue(Str(text))
  }

  /** An option instance, updated field by field as src/Option.js does. */
  class Option {
    var alias: Value
    var default: Value
    var description: Value
    var name: Value
    var required: Value
    var kind: Value

    function Data(): OptionData
      reads this
    {
      OptionData(alias, default, description, name, required, kind)
    }

    /** The field initialisers (src/Option.js:24-55). */
    constructor ()
      ensures Data() == Defaults
    {
      alias := Str("");
      default := Null;
      description := Str("");
      name := Str("");
      required := Bool(false);
      kind := Str("boolean");
    }

    method SetField(field: string, v: Value)
      requires field in FieldNames
      modifies this
      ensures Data() == old(Data()).With(field, v)
    {
      match field
      case "alias" => alias := v;
      case "default" => default := v;
      case "description" => description := v;
      case "name" => name := v;
      case "required" => required := v;
      case "type" => kind := v;
    }

    /** `parseString(config)`: splits on `|`, swaps name and alias when the name is the
        longer one, rejects a name of more than one character and then fills the fields. */
    method ParseString(config: string) returns (c: Completion)
      modifies this
      ensures ParseOnto(old(Data()), config).Ok? ==> c == Normal && Data() == ParseOnto(old(Data()), config).value
      ensures ParseOnto(old(Data()), config).Throw? ==> c == Thrown(ParseOnto(old(Data()), config).message) && Data() == old(Data())
    {
      c := AssignParts(Split(config, '|'), config);
    }

    /** `parseString` once `config` has been split into `parts`. */
    method AssignParts(parts: seq<string>, config: string) returns (c: Completion)
      requires |parts| >= 1
      modifies this
      ensures ParseParts(old(Data()), parts, config).Ok? ==> c == Normal && Data() == ParseParts(old(Data()), parts, config).value
      ensures ParseParts(old(Data()), parts, config).Throw? ==> c == Thrown(ParseParts(old(Data()), parts, config).message) && Data() == old(Data())
    {
      var n := parts[0];
      var desc := Piece(parts, 1);
      var a := Piece(parts, 2);
      var t := Piece(parts, 3);
      var dflt := Piece(parts, 4);
      if a.Some? && a.value != "" && |n| > |a.value| {
        var tmp := n;
        n := a.value;
        a := Some(tmp);
      }
      assert n == ShortName(parts) && a == LongName(parts);
      if |n| > 1 {
        return Thrown("La opción corta debe usar un solo carácter: " + n + " -- " + config + ".");
      }
      ghost var withName := old(Data()).(name := Str(n));
      name := Str(n);
      assert Data() == withName;
      ghost var withAlias := if Given(a) && a.value != n then withName.(alias := Str(a.value)) else withName;
      if a.Some? && a.value != "" && a.value != n {
        alias := Str(a.value);
      }
      assert Data() == withAlias;
      ghost var withDesc := if Given(desc) then withAlias.(description := Str(desc.value)) else withAlias;
      if desc.Some? && desc.value != "" {
        description := Str(desc.value);
      }
      assert Data() == withDesc;
      ghost var withType := if Given(t) then withDesc.(kind := Str(t.value)) else withDesc;
      if t.Some? && t.value != "" {
        kind := Str(t.value);
      }
      assert Data() == withType;
      if dflt.None? {
        if kind == Str("boolean") {
          default := Bool(false);
        } else {
          required := Bool(true);
        }
      } else {
        default := Str(dflt.value);
      }
      c := Normal;
    }

    /** The object branch of the constructor (src/Option.js:59-71) as written: `iterate`
        runs the copy callback on the keys in ascending order until it answers falsy,
        which it does at once, so only the smallest key is copied. */
    method AssignFields(props: map<string, Value>)
      modifies this
      ensures Data() == CopyFieldsAsWritten(old(Data()), props)
    {
      IterateOrder(Object(props), CopyCallback);
      AssignKeys(props, IterateCalls(Object(props), CopyCallback));
    }

    /** The callback of the object branch run on each of `keys` in turn. */
    method AssignKeys(props: map<string, Value>, keys: seq<string>)
      requires forall i :: 0 <= i < |keys| ==> keys[i] in props
      modifies this
      ensures Data() == CopyKeys(old(Data()), props, keys)
    {
      var i := 0;
      while i < |keys|
        invariant 0 <= i <= |keys|
        invariant Data() == CopyKeys(old(Data()), props, keys[..i])
      {
        var k := keys[i];
        assert keys[..i + 1][..i] == keys[..i];
        if k in FieldNames && Data().Get(k) != Undefined {
          SetField(k, props[k]);
        }
        i := i + 1;
      }
      assert keys[..i] == keys;
    }

    /** The configuration step of the constructor (src/Option.js:57-76). */
    method Configure(config: Value) returns (c: Completion)
      modifies this
      ensures Configured(old(Data()), config).Ok? ==>
                c == Normal && Data() == Configured(old(Data()), config).value
      ensures Configured(old(Data()), config).Throw? ==>
                c == Thrown(Configured(old(Data()), config).message) && Data() == old(Data())
    {
      c := Normal;
      if !Truthy(config) {
        return;
      }
      if Truthy(IsObject(config)) {
        AssignFields(config.props);
      } else if config.Str? {
        c := ParseString(config.s);
      }
    }

    /** `toString()`. */
    function ToString(): string
      reads this
    {
      OptionText(Data())
    }
  }

  /** `new Option(config)`: the constructor followed by the configuration step. */
  method New(config: Value) returns (r: Result<Option>)
    ensures FromValue(config).Ok? <==> r.Ok?
    ensures r.Ok? ==> fresh(r.value) && r.value.Data() == FromValue(config).value
    ensures r.Throw? ==> r.message == FromValue(config).message
  {
    var o := new Option();
    var c := o.Configure(config);
    if c.Thrown? {
      return Throw(c.message);
    }
    r := Ok(o);
  }

  // ---- Properties of the string form ----------------------------------------------

  /** When an alias is given and the name is longer than it, the two trade places;
      otherwise the first field is the name. */
  lemma ParseSwapsNameAndAlias(config: string)
    requires ParseOnto(Defaults, config).Ok?
    ensures var parts := Split(config, '|');
            var d := ParseOnto(Defaults, config).value;
            (Swaps(parts) ==> d.name == Str(parts[2]) && d.alias == Str(parts[0]))
            && (!Swaps(parts) ==> d.name == Str(parts[0]))
  {
  }

  /** Parsing fails exactly when the name left after the swap is longer than one
      character; an empty name is accepted. */
  lemma ParseRejectsLongName(prev: OptionData, config: string)
    ensures ParseOnto(prev, config).Throw? <==> |ShortName(Split(config, '|'))| > 1
    ensures ParseOnto(prev, config).Ok? ==> ParseOnto(prev, config).value.name == Str(ShortName(Split(config, '|')))
  {
    PartsName(prev, Split(config, '|'), config);
  }

  lemma PartsName(prev: OptionData, parts: seq<string>, config: string)
    requires |parts| >= 1
    ensures ParseParts(prev, parts, config).Throw? <==> |ShortName(parts)| > 1
    ensures ParseParts(prev, parts, config).Ok? ==> ParseParts(prev, parts, config).value.name == Str(ShortName(parts))
  {
  }

  /** `"ab|desc"` has no alias to swap with, so it is rejected; `"|desc"` is accepted
      with an empty name. */
  lemma ParseExamples()
    ensures FromString("ab|desc").Throw?
    ensures FromString("|desc").Ok? && FromString("|desc").value.name == Str("")
  {
    ParseRejectsTwoLetters();
    ParseEmptyName();
  }

  lemma ParseRejectsTwoLetters()
    ensures FromString("ab|desc").Throw?
  {
    SplitExamples();
    PartsName(Defaults, ["ab", "desc"], "ab|desc");
    assert FromString("ab|desc") == ParseOnto(Defaults, "ab|desc");
  }

  lemma ParseEmptyName()
    ensures FromString("|desc").Ok? && FromString("|desc").value.name == Str("")
  {
    SplitExamples();
    PartsName(Defaults, ["", "desc"], "|desc");
    assert FromString("|desc") == ParseOnto(Defaults, "|desc");
  }

  lemma SplitExamples()
    ensures Split("ab|desc", '|') == ["ab", "desc"]
    ensures Split("|desc", '|') == ["", "desc"]
  {
    assert "ab|desc" == "ab" + ['|'] + "desc";
    SplitAt("ab", '|', "desc");
    SplitNone("desc", '|');
    assert "|desc" == "" + ['|'] + "desc";
    SplitAt("", '|', "desc");
  }

  /** The alias is kept only when it is non-empty and differs from the name; an empty
      description or type leaves `''` and `'boolean'`. */
  lemma ParseAliasDescriptionType(config: string)
    requires ParseOnto(Defaults, config).Ok?
    ensures var parts := Split(config, '|');
            var d := ParseOnto(Defaults, config).value;
            var a := LongName(parts);
            (d.alias == if Given(a) && a.value != ShortName(parts) then Str(a.value) else Str(""))
            && (d.description == if Given(Piece(parts, 1)) then Str(parts[1]) else Str(""))
            && (d.kind == if Given(Piece(parts, 3)) then Str(parts[3]) else Str("boolean"))
  {
  }

  /** Without a fifth field a boolean option defaults to `false` and is optional, any
      other type is required with default `null`; with a fifth field, even `''`, that
      string is the default and the option stays optional. */
  lemma ParseDefaultAndRequired(config: string)
    requires ParseOnto(Defaults, config).Ok?
    ensures var parts := Split(config, '|');
            var d := ParseOnto(Defaults, config).value;
            (|parts| < 5 && d.kind == Str("boolean") ==> d.default == Bool(false) && d.required == Bool(false))
            && (|parts| < 5 && d.kind != Str("boolean") ==> d.default == Null && d.required == Bool(true))
            && (|parts| >= 5 ==> d.default == Str(parts[4]) && d.required == Bool(false))
  {
  }

  /** What an option parsed from a string looks like: string fields free of `|`, a name
      of at most one character, and an alias that is either empty or a different string
      at least as long as the name. */
  predicate ParsedShape(d: OptionData)
  {
    && d.name.Str? && d.description.Str? && d.alias.Str? && d.kind.Str?
    && |d.name.s| <= 1
    && '|' !in d.name.s && '|' !in d.description.s && '|' !in d.alias.s && '|' !in d.kind.s
    && (d.alias.s != "" ==> d.alias.s != d.name.s && |d.name.s| <= |d.alias.s|)
    && d.kind.s != ""
    && d.required.Bool?
    && (d.kind.s == "boolean" ==> !d.required.b)
  }

  lemma ParsedHasShape(config: string)
    requires FromString(config).Ok?
    ensures ParsedShape(FromString(config).value)
  {
    if config == "" {
      assert FromString(config).value == Defaults;
    } else {
      var parts := Split(config, '|');
      assert FromString(config) == ParseParts(Defaults, parts, config);
      PartsHaveShape(parts, config);
    }
  }

  /** Parsing pieces free of `|` onto the defaults gives an option of the parsed shape. */
  lemma PartsHaveShape(parts: seq<string>, config: string)
    requires |parts| >= 1 && forall i :: 0 <= i < |parts| ==> '|' !in parts[i]
    requires ParseParts(Defaults, parts, config).Ok?
    ensures ParsedShape(ParseParts(Defaults, parts, config).value)
  {
  }

  /** Re-parsing the string form of a parsed option gives back its name, description,
      alias, type and required flag; only the default value may change. */
  lemma RoundTrip(config: string)
    requires FromString(config).Ok?
    ensures var d := FromString(config).value;
            var e := ParseOnto(Defaults, OptionText(d));
            e.Ok? && e.value.name == d.name && e.value.description == d.description
            && e.value.alias == d.alias && e.value.kind == d.kind && e.value.required == d.required
  {
    var d := FromString(config).value;
    ParsedHasShape(config);
    ShapeRoundTrip(d);
  }

  /** The round trip for any option of the parsed shape. */
  lemma ShapeRoundTrip(d: OptionData)
    requires ParsedShape(d)
    ensures var e := ParseOnto(Defaults, OptionText(d));
            e.Ok? && e.value.name == d.name && e.value.description == d.description
            && e.value.alias == d.alias && e.value.kind == d.kind && e.value.required == d.required
  {
    ToStringShape(d);
    var pieces := TextPieces(d);
    assert forall i :: 0 <= i < |pieces| ==> '|' !in pieces[i];
    SplitJoin(pieces, '|');
    assert Split(OptionText(d), '|') == pieces;
    PiecesParseBack(d, OptionText(d));
  }

  lemma PiecesParseBack(d: OptionData, config: string)
    requires ParsedShape(d)
    ensures var e := ParseParts(Defaults, TextPieces(d), config);
            e.Ok? && e.value.name == d.name && e.value.description == d.description
            && e.value.alias == d.alias && e.value.kind == d.kind && e.value.required == d.required
  {
    var pieces := TextPieces(d);
    assert !Swaps(pieces);
    assert ShortName(pieces) == d.name.s;
  }

  /** An object configuration is copied without the one-letter check on the name. */
  lemma ObjectConfigSkipsNameCheck()
    ensures FromValue(Object(map["name" := Str("abc")])) == Ok(Defaults.(name := Str("abc")))
  {
    var props := map["name" := Str("abc")];
    assert props.Keys == {"name"};
    assert Least(props.Keys) == "name";
    assert FromValue(Object(props)) == Ok(CopyKey(Defaults, props, "name"));
    assert "name" in FieldNames && Defaults.Get("name") == Str("");
    assert CopyKey(Defaults, props, "name") == Defaults.With("name", Str("abc"));
  }
}
