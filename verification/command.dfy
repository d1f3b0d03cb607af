/** Commands (src/Command.js): a command has a name, a description and a table of
    options keyed by option name; the static `parse` fills the module-wide table of
    commands from a configuration object. */
module Commands {
  import opened Text
  import opened JsValue
  import opened ObjectUtils
  import opened Options

  /** The fields of a command instance; each option is held by value. */
  datatype CommandData = CommandData(name: string, description: Value, options: map<string, OptionData>)

  /** A command instance as a JavaScript object. */
  function CommandValue(c: CommandData): (v: Value)
    ensures v.Obj? && v.proto == CommandProto
  {
    Obj(map["name" := Str(c.name), "description" := c.description,
            "options" := Object(map k | k in c.options :: c.options[k].AsValue())], CommandProto)
  }

  /** The key an option is stored under: `String(option.name)`. */
  function OptionKey(o: OptionData): string
  {
    ToJsString(o.name)
  }

  /** Every option is stored under its own name. */
  predicate KeyedByName(options: map<string, OptionData>)
  {
    forall k :: k in options ==> OptionKey(options[k]) == k
  }

  /** What an option entry is handed to `new Option`: an option instance by its text,
      a string prefixed with its key, anything else unchanged. */
  function OptionConfig(key: string, value: Value): (r: Value)
    ensures value.Str? ==> r == Str(key + "|" + value.s)
    ensures value.Obj? && value.proto == OptionProto ==> r == Str(ToJsString(value))
    ensures !value.Str? && !(value.Obj? && value.proto == OptionProto) ==> r == value
  {
    if value.Obj? && value.proto == OptionProto then Str(ToJsString(value))
    else if value.Str? then Str(key + "|" + value.s)
    else value
  }

  /** The option an entry of the configuration builds, or the exception `new Option` throws. */
  function EntryOption(key: string, value: Value): Result<OptionData>
  {
    FromValue(OptionConfig(key, value))
  }

  /** One call of the callback of `parse` (src/Command.js:63-83): the empty key sets the
      description, any other key adds an option under its name. */
  function ParseEntry(d: CommandData, key: string, value: Value): (r: Outcome<CommandData>)
    ensures r.state.name == d.name
    ensures key == "" ==> r == Outcome(d.(description := value), Normal)
    ensures key != "" && EntryOption(key, value).Throw? ==>
              r == Outcome(d, Thrown(EntryOption(key, value).message))
    ensures key != "" && EntryOption(key, value).Ok? ==>
              var o := EntryOption(key, value).value;
              r == Outcome(d.(options := d.options[OptionKey(o) := o]), Normal)
  {
    if key == "" then Outcome(d.(description := value), Normal)
    else match EntryOption(key, value)
      case Throw(m) => Outcome(d, Thrown(m))
      case Ok(o) => Outcome(d.(options := d.options[OptionKey(o) := o]), Normal)
  }

  /** The callback applied to `keys` in order, stopping at the first exception. */
  function ParseKeys(d: CommandData, props: map<string, Value>, keys: seq<string>): Outcome<CommandData>
    requires forall i :: 0 <= i < |keys| ==> keys[i] in props
  {
    if keys == [] then Outcome(d, Normal)
    else
      var prev := ParseKeys(d, props, keys[..|keys| - 1]);
      if prev.completion.Thrown? then prev
      else ParseEntry(prev.state, keys[|keys| - 1], props[keys[|keys| - 1]])
  }

  /** `command.parse(config)`: `iterate` visits the keys of an object configuration in
      ascending order; anything else is left alone. */
  function ParseConfig(d: CommandData, config: Value): Outcome<CommandData>
  {
    if config.Obj? then ParseKeys(d, config.props, SortedProps(config.props)) else Outcome(d, Normal)
  }

  /** The configuration the constructor works on: a missing one defaults to `{}`. */
  function EffectiveConfig(config: Value): (r: Value)
    ensures config == Undefined ==> r == Object(map[])
    ensures config != Undefined ==> r == config
  {
    if config == Undefined then Object(map[]) else config
  }

  /** The description the constructor starts from (src/Command.js:31-33): a string
      configuration itself, otherwise `config['']` when truthy and `''` otherwise;
      reading from `null` throws. */
  function InitialDescription(config: Value): (r: Result<Value>)
    ensures r.Throw? <==> config == Null || config == Undefined
    ensures config.Str? ==> r == Ok(config)
    ensures config.Obj? ==> r == Ok(if Truthy(Field(config.props, "")) then config.props[""] else Str(""))
  {
    if config.Str? then Ok(config)
    else match GetProp(config, "")
      case Throw(m) => Throw(m)
      case Ok(v) => Ok(if Truthy(v) then v else Str(""))
  }

  /** The fields of `new Command(name, config)`, or the exception the constructor throws. */
  function Construct(name: string, config: Value): Result<CommandData>
  {
    var c := EffectiveConfig(config);
    match InitialDescription(c)
    case Throw(m) => Throw(m)
    case Ok(desc) =>
      var out := ParseConfig(CommandData(name, desc, map[]), c);
      if out.completion.Thrown? then Throw(out.completion.message) else Ok(out.state)
  }

  // ---- Properties of a single command ---------------------------------------------

  /** Walking one key further is one more call of the callback, unless an exception was thrown. */
  lemma ParseKeysStep(d: CommandData, props: map<string, Value>, keys: seq<string>, i: nat)
    requires forall i :: 0 <= i < |keys| ==> keys[i] in props
    requires i < |keys|
    ensures var prev := ParseKeys(d, props, keys[..i]);
            ParseKeys(d, props, keys[..i + 1])
            == if prev.completion.Thrown? then prev else ParseEntry(prev.state, keys[i], props[keys[i]])
  {
    assert keys[..i + 1][..i] == keys[..i];
  }

  /** Once an exception is thrown, the remaining keys change nothing. */
  lemma {:induction false} ThrownSticks(d: CommandData, props: map<string, Value>, keys: seq<string>, j: nat)
    requires forall i :: 0 <= i < |keys| ==> keys[i] in props
    requires j <= |keys|
    requires ParseKeys(d, props, keys[..j]).completion.Thrown?
    ensures ParseKeys(d, props, keys) == ParseKeys(d, props, keys[..j])
    decreases |keys|
  {
    if j < |keys| {
      assert keys[..|keys| - 1][..j] == keys[..j];
      ThrownSticks(d, props, keys[..|keys| - 1], j);
    } else {
      assert keys[..j] == keys;
    }
  }

  /** Parsing keeps every option under its own name and never touches the name. */
  lemma {:induction false} ParseKeysKeyedByName(d: CommandData, props: map<string, Value>, keys: seq<string>)
    requires forall i :: 0 <= i < |keys| ==> keys[i] in props
    requires KeyedByName(d.options)
    ensures KeyedByName(ParseKeys(d, props, keys).state.options)
    ensures ParseKeys(d, props, keys).state.name == d.name
  {
    if keys != [] {
      ParseKeysKeyedByName(d, props, keys[..|keys| - 1]);
    }
  }

  /** The option names an entry list produces: one per non-empty key whose option
      builds, the name of that option. */
  function EntryNames(props: map<string, Value>, keys: seq<string>): set<string>
    requires forall i :: 0 <= i < |keys| ==> keys[i] in props
  {
    if keys == [] then {}
    else
      var k := keys[|keys| - 1];
      var o := EntryOption(k, props[k]);
      EntryNames(props, keys[..|keys| - 1]) + if k != "" && o.Ok? then {OptionKey(o.value)} else {}
  }

  /** After a parse that ends normally, every non-empty key built its option. */
  lemma {:induction false} ParseKeysAllBuilt(d: CommandData, props: map<string, Value>, keys: seq<string>)
    requires forall i :: 0 <= i < |keys| ==> keys[i] in props
    requires ParseKeys(d, props, keys).completion.Normal?
    ensures forall i :: 0 <= i < |keys| && keys[i] != "" ==> EntryOption(keys[i], props[keys[i]]).Ok?
  {
    if keys != [] {
      var init := keys[..|keys| - 1];
      ParseKeysAllBuilt(d, props, init);
      assert forall i :: 0 <= i < |init| ==> init[i] == keys[i];
    }
  }

  /** After a parse that ends normally the table holds exactly the old names plus the
      names of the options the keys built. */
  lemma {:induction false} ParseKeysNames(d: CommandData, props: map<string, Value>, keys: seq<string>)
    requires forall i :: 0 <= i < |keys| ==> keys[i] in props
    requires ParseKeys(d, props, keys).completion.Normal?
    ensures ParseKeys(d, props, keys).state.options.Keys == d.options.Keys + EntryNames(props, keys)
  {
    if keys != [] {
      ParseKeysNames(d, props, keys[..|keys| - 1]);
    }
  }

  /** Every option in the table after a parse is an untouched old one or the option some
      key built. */
  lemma {:induction false} ParseKeysProvenance(d: CommandData, props: map<string, Value>, keys: seq<string>)
    requires forall i :: 0 <= i < |keys| ==> keys[i] in props
    requires ParseKeys(d, props, keys).completion.Normal?
    ensures var opts := ParseKeys(d, props, keys).state.options;
            forall n :: n in opts ==>
              (n in d.options && opts[n] == d.options[n])
              || exists i :: 0 <= i < |keys| && keys[i] != "" && EntryOption(keys[i], props[keys[i]]) == Ok(opts[n])
  {
    if keys != [] {
      var init := keys[..|keys| - 1];
      var last := keys[|keys| - 1];
      var prev := ParseKeys(d, props, init);
      ParseKeysProvenance(d, props, init);
      var opts := ParseKeys(d, props, keys).state.options;
      forall n | n in opts
        ensures (n in d.options && opts[n] == d.options[n])
                || exists i :: 0 <= i < |keys| && keys[i] != "" && EntryOption(keys[i], props[keys[i]]) == Ok(opts[n])
      {
        if last != "" && n == OptionKey(EntryOption(last, props[last]).value) {
          assert EntryOption(keys[|keys| - 1], props[keys[|keys| - 1]]) == Ok(opts[n]);
        } else {
          assert opts[n] == prev.state.options[n];
          if !(n in d.options && opts[n] == d.options[n]) {
            var i :| 0 <= i < |init| && init[i] != "" && EntryOption(init[i], props[init[i]]) == Ok(opts[n]);
            assert keys[i] == init[i];
          }
        }
      }
    }
  }

  /** The option of the last key always ends up in the table under its name. */
  lemma LastEntryWins(d: CommandData, props: map<string, Value>, keys: seq<string>)
    requires forall i :: 0 <= i < |keys| ==> keys[i] in props
    requires keys != [] && keys[|keys| - 1] != ""
    requires ParseKeys(d, props, keys).completion.Normal?
    ensures var o := EntryOption(keys[|keys| - 1], props[keys[|keys| - 1]]);
            o.Ok? && ParseKeys(d, props, keys).state.options[OptionKey(o.value)] == o.value
  {
  }

  /** A constructed command keeps its name, stores every option under the option's own
      name, and takes its description from the empty key, `''` when there is none. */
  lemma ConstructObject(name: string, props: map<string, Value>, proto: Proto)
    requires Construct(name, Obj(props, proto)).Ok?
    ensures var c := Construct(name, Obj(props, proto)).value;
            c.name == name && KeyedByName(c.options)
            && c.description == (if "" in props then props[""] else Str(""))
            && c.options.Keys == EntryNames(props, SortedProps(props))
  {
    var keys := SortedProps(props);
    var desc := InitialDescription(Obj(props, proto)).value;
    var d := CommandData(name, desc, map[]);
    ParseKeysKeyedByName(d, props, keys);
    ParseKeysNames(d, props, keys);
    DescriptionFromEmptyKey(d, props, keys);
  }

  /** The description after parsing is the value of the empty key when there is one. */
  lemma {:induction false} DescriptionFromEmptyKey(d: CommandData, props: map<string, Value>, keys: seq<string>)
    requires forall i :: 0 <= i < |keys| ==> keys[i] in props
    requires ParseKeys(d, props, keys).completion.Normal?
    ensures ParseKeys(d, props, keys).state.description == if "" in keys then props[""] else d.description
  {
    if keys != [] {
      var init := keys[..|keys| - 1];
      DescriptionFromEmptyKey(d, props, init);
      assert "" in keys <==> "" in init || keys[|keys| - 1] == "";
    }
  }

  /** A string configuration is only a description; a missing one is an empty command;
      `null` throws. */
  lemma ConstructNonObject(name: string, config: Value)
    ensures config.Str? ==> Construct(name, config) == Ok(CommandData(name, config, map[]))
    ensures config == Undefined ==> Construct(name, config) == Ok(CommandData(name, Str(""), map[]))
    ensures config == Null ==> Construct(name, config).Throw?
  {
    if config == Undefined {
      assert SortedProps(map[]) == [];
    }
  }

  /** An option instance given as an option entry is rebuilt from its text: an option
      that came from a string keeps its name, description, alias, type and required flag. */
  lemma OptionInstanceEntry(key: string, text: string)
    requires FromString(text).Ok?
    ensures var o := FromString(text).value;
            var e := EntryOption(key, o.AsValue());
            e.Ok? && e.value.name == o.name && e.value.description == o.description
            && e.value.alias == o.alias && e.value.kind == o.kind && e.value.required == o.required
  {
    RoundTrip(text);
  }

  /** A string entry `key: text` is the option `key|text`: the key is its name unless the
      text gives a shorter alias. */
  lemma StringEntry(key: string, text: string)
    ensures EntryOption(key, Str(text)) == ParseOnto(Defaults, key + "|" + text)
  {
  }

  /** A command instance. */
  class Command {
    var name: string
    var description: Value
    var options: map<string, OptionData>

    function Data(): CommandData
      reads this
    {
      CommandData(name, description, options)
    }

    /** The field initialisers of the constructor, before `parse` runs. */
    constructor (name: string, description: Value)
      ensures Data() == CommandData(name, description, map[])
    {
      this.name := name;
      this.description := description;
      options := map[];
    }

    /** The callback of `parse` on one key (src/Command.js:63-83). */
    method AddEntry(key: string, value: Value) returns (c: Completion)
      modifies this
      ensures Outcome(Data(), c) == ParseEntry(old(Data()), key, value)
    {
      c := Normal;
      if key == "" {
        description := value;
      } else {
        var o := New(OptionConfig(key, value));
        if o.Throw? {
          return Thrown(o.message);
        }
        var data := o.value.Data();
        options := options[OptionKey(data) := data];
      }
    }

    /** `parse(config)` (src/Command.js:57-85): each key of an object configuration, in
        ascending order, becomes the description or an option; the result is whether
        `config` was an object, or the exception a bad option throws. */
    method Parse(config: Value) returns (r: Result<bool>)
      modifies this
      ensures Data() == ParseConfig(old(Data()), config).state
      ensures r.Ok? <==> ParseConfig(old(Data()), config).completion.Normal?
      ensures r.Ok? ==> r.value == config.Obj?
      ensures r.Throw? ==> ParseConfig(old(Data()), config).completion == Thrown(r.message)
    {
      if !Truthy(IsObject(config)) {
        return Ok(false);
      }
      var c := ParseEach(config.props, SortedProps(config.props));
      r := if c.Thrown? then Throw(c.message) else Ok(true);
    }

    /** The callback run on the keys `keys` in turn, up to the first exception. */
    method ParseEach(props: map<string, Value>, keys: seq<string>) returns (c: Completion)
      requires forall i :: 0 <= i < |keys| ==> keys[i] in props
      modifies this
      ensures Outcome(Data(), c) == ParseKeys(old(Data()), props, keys)
    {
      var i := 0;
      while i < |keys|
        invariant 0 <= i <= |keys|
        invariant ParseKeys(old(Data()), props, keys[..i]) == Outcome(Data(), Normal)
      {
        ParseKeysStep(old(Data()), props, keys, i);
        c := AddEntry(keys[i], props[keys[i]]);
        if c.Thrown? {
          ThrownSticks(old(Data()), props, keys, i + 1);
          return;
        }
        i := i + 1;
      }
      assert keys[..i] == keys;
      c := Normal;
    }
  }

  /** `new Command(name, config)`: the initial description, then `parse`. */
  method Create(name: string, config: Value) returns (r: Result<Command>)
    ensures Construct(name, config).Ok? <==> r.Ok?
    ensures r.Ok? ==> fresh(r.value) && r.value.Data() == Construct(name, config).value
    ensures r.Throw? ==> r.message == Construct(name, config).message
  {
    var c := EffectiveConfig(config);
    var desc := InitialDescription(c);
    if desc.Throw? {
      return Throw(desc.message);
    }
    var cmd := new Command(name, desc.value);
    var p := cmd.Parse(c);
    if p.Throw? {
      return Throw(p.message);
    }
    r := Ok(cmd);
  }

  // ---- The table of commands ------------------------------------------------------

  /** The name a configuration key is registered under: prefixed with `name:` when a
      parent name is given. */
  function QualifiedName(name: string, key: string): string
  {
    if name != "" then name + ":" + key else key
  }

  /** Different keys are registered under different names. */
  lemma QualifiedNameInjective(name: string, k1: string, k2: string)
    requires k1 != k2
    ensures QualifiedName(name, k1) != QualifiedName(name, k2)
  {
    if name != "" {
      var p := name + ":";
      assert QualifiedName(name, k1) == p + k1 && QualifiedName(name, k2) == p + k2;
      assert k1 == (p + k1)[|p|..];
      assert k2 == (p + k2)[|p|..];
    }
  }

  /** What a configuration value is turned into before construction: a string is the
      description, as in `{'': value}`. */
  function EntryConfig(value: Value): (r: Value)
    ensures value.Str? ==> r == Object(map["" := value])
    ensures !value.Str? ==> r == value
  {
    if value.Str? then Object(map["" := value]) else value
  }

  /** The string shorthand and its object form build the same command. */
  lemma StringShorthand(name: string, s: string)
    ensures Construct(name, Str(s)) == Construct(name, EntryConfig(Str(s)))
  {
    var props := map["" := Str(s)];
    assert props.Keys == {""};
    var keys := SortedProps(props);
    assert |keys| == 1 && keys[0] in props;
    assert keys == [""];
    var d := CommandData(name, InitialDescription(Object(props)).value, map[]);
    assert keys[..0] == [];
    assert ParseKeys(d, props, keys) == Outcome(d.(description := Str(s)), Normal);
  }

  /** One call of the callback of the static `parse` (src/Command.js:143-154). */
  function RegisterEntry(table: map<string, CommandData>, name: string, key: string, value: Value): (r: Outcome<map<string, CommandData>>)
    ensures Construct(QualifiedName(name, key), EntryConfig(value)).Ok? ==>
              r == Outcome(table[QualifiedName(name, key) := Construct(QualifiedName(name, key), EntryConfig(value)).value], Normal)
    ensures Construct(QualifiedName(name, key), EntryConfig(value)).Throw? ==>
              r == Outcome(table, Thrown(Construct(QualifiedName(name, key), EntryConfig(value)).message))
  {
    var q := QualifiedName(name, key);
    match Construct(q, EntryConfig(value))
    case Throw(m) => Outcome(table, Thrown(m))
    case Ok(c) => Outcome(table[q := c], Normal)
  }

  function RegisterKeys(table: map<string, CommandData>, name: string, props: map<string, Value>, keys: seq<string>): Outcome<map<string, CommandData>>
    requires forall i :: 0 <= i < |keys| ==> keys[i] in props
  {
    if keys == [] then Outcome(table, Normal)
    else
      var prev := RegisterKeys(table, name, props, keys[..|keys| - 1]);
      if prev.completion.Thrown? then prev
      else RegisterEntry(prev.state, name, keys[|keys| - 1], props[keys[|keys| - 1]])
  }

  /** `Command.parse(config, name)` on the table of commands. */
  function RegisterConfig(table: map<string, CommandData>, config: Value, name: string): Outcome<map<string, CommandData>>
  {
    if config.Obj? then RegisterKeys(table, name, config.props, SortedProps(config.props))
    else Outcome(table, Normal)
  }

  lemma {:induction false} RegisterThrownSticks(table: map<string, CommandData>, name: string, props: map<string, Value>, keys: seq<string>, j: nat)
    requires forall i :: 0 <= i < |keys| ==> keys[i] in props
    requires j <= |keys|
    requires RegisterKeys(table, name, props, keys[..j]).completion.Thrown?
    ensures RegisterKeys(table, name, props, keys) == RegisterKeys(table, name, props, keys[..j])
    decreases |keys|
  {
    if j < |keys| {
      assert keys[..|keys| - 1][..j] == keys[..j];
      RegisterThrownSticks(table, name, props, keys[..|keys| - 1], j);
    } else {
      assert keys[..j] == keys;
    }
  }

  /** Walking one key further registers one more command, unless an exception was thrown. */
  lemma RegisterKeysStep(table: map<string, CommandData>, name: string, props: map<string, Value>, keys: seq<string>, i: nat)
    requires forall i :: 0 <= i < |keys| ==> keys[i] in props
    requires i < |keys|
    ensures var prev := RegisterKeys(table, name, props, keys[..i]);
            RegisterKeys(table, name, props, keys[..i + 1])
            == if prev.completion.Thrown? then prev else RegisterEntry(prev.state, name, keys[i], props[keys[i]])
  {
    assert keys[..i + 1][..i] == keys[..i];
  }

  /** Distinct keys have distinct qualified names. */
  lemma QualifiedNamesDistinct(name: string, keys: seq<string>)
    requires forall i, j :: 0 <= i < j < |keys| ==> keys[i] != keys[j]
    ensures forall i, j :: 0 <= i < j < |keys| ==> QualifiedName(name, keys[i]) != QualifiedName(name, keys[j])
  {
    forall i, j | 0 <= i < j < |keys| ensures QualifiedName(name, keys[i]) != QualifiedName(name, keys[j]) {
      QualifiedNameInjective(name, keys[i], keys[j]);
    }
  }

  /** A registration that ends normally registers, for every key, the command built from
      its value under the key's qualified name. */
  lemma {:induction false} RegisterKeysBuilt(table: map<string, CommandData>, name: string, props: map<string, Value>, keys: seq<string>)
    requires forall i :: 0 <= i < |keys| ==> keys[i] in props
    requires forall i, j :: 0 <= i < j < |keys| ==> QualifiedName(name, keys[i]) != QualifiedName(name, keys[j])
    requires RegisterKeys(table, name, props, keys).completion.Normal?
    ensures var t := RegisterKeys(table, name, props, keys).state;
            forall i :: 0 <= i < |keys| ==>
              Construct(QualifiedName(name, keys[i]), EntryConfig(props[keys[i]])).Ok?
              && QualifiedName(name, keys[i]) in t
              && t[QualifiedName(name, keys[i])] == Construct(QualifiedName(name, keys[i]), EntryConfig(props[keys[i]])).value
  {
    if keys != [] {
      var init := keys[..|keys| - 1];
      var last := keys[|keys| - 1];
      assert forall i :: 0 <= i < |init| ==> init[i] == keys[i];
      var prev := RegisterKeys(table, name, props, init);
      var r := RegisterKeys(table, name, props, keys);
      assert r == if prev.completion.Thrown? then prev else RegisterEntry(prev.state, name, last, props[last]);
      assert prev.completion.Normal? && r == RegisterEntry(prev.state, name, last, props[last]);
      RegisterKeysBuilt(table, name, props, init);
      var c := Construct(QualifiedName(name, last), EntryConfig(props[last]));
      assert c.Ok?;
      var t := r.state;
      assert t == prev.state[QualifiedName(name, last) := c.value];
      forall i | 0 <= i < |keys|
        ensures Construct(QualifiedName(name, keys[i]), EntryConfig(props[keys[i]])).Ok?
                && QualifiedName(name, keys[i]) in t
                && t[QualifiedName(name, keys[i])] == Construct(QualifiedName(name, keys[i]), EntryConfig(props[keys[i]])).value
      {
        if i < |keys| - 1 {
          assert QualifiedName(name, keys[i]) != QualifiedName(name, last);
        }
      }
    }
  }

  /** A registration keeps every command whose name no key qualifies to. */
  lemma {:induction false} RegisterKeysKeeps(table: map<string, CommandData>, name: string, props: map<string, Value>, keys: seq<string>, n: string)
    requires forall i :: 0 <= i < |keys| ==> keys[i] in props
    requires n in table && forall i :: 0 <= i < |keys| ==> n != QualifiedName(name, keys[i])
    ensures var t := RegisterKeys(table, name, props, keys).state;
            n in t && t[n] == table[n]
  {
    if keys != [] {
      var init := keys[..|keys| - 1];
      assert forall i :: 0 <= i < |init| ==> init[i] == keys[i];
      RegisterKeysKeeps(table, name, props, init, n);
    }
  }

  /** The module-wide table of commands that the static `parse` fills. */
  class Registry {
    var commands: map<string, CommandData>

    constructor ()
      ensures commands == map[]
    {
      commands := map[];
    }

    /** `Command.parse(config, name)` (src/Command.js:139-156): every key of an object
        configuration, in ascending order, registers a new command under its qualified
        name, replacing any earlier one; a string value is the command's description.
        A command that throws stops the walk and leaves the earlier ones registered. */
    method Parse(config: Value, name: string) returns (r: Result<bool>)
      modifies this
      ensures commands == RegisterConfig(old(commands), config, name).state
      ensures r.Ok? <==> RegisterConfig(old(commands), config, name).completion.Normal?
      ensures r.Ok? ==> r.value == config.Obj?
      ensures r.Throw? ==> RegisterConfig(old(commands), config, name).completion == Thrown(r.message)
    {
      if !Truthy(IsObject(config)) {
        return Ok(false);
      }
      var c := RegisterEach(config.props, SortedProps(config.props), name);
      if c.Thrown? {
        return Throw(c.message);
      }
      r := Ok(true);
    }

    /** The walk of `Command.parse` over the keys `keys` of the configuration `props`. */
    method RegisterEach(props: map<string, Value>, keys: seq<string>, name: string) returns (c: Completion)
      requires forall i :: 0 <= i < |keys| ==> keys[i] in props
      modifies this
      ensures Outcome(commands, c) == RegisterKeys(old(commands), name, props, keys)
    {
      var i := 0;
      while i < |keys|
        invariant 0 <= i <= |keys|
        invariant RegisterKeys(old(commands), name, props, keys[..i]) == Outcome(commands, Normal)
      {
        var key := keys[i];
        var q := QualifiedName(name, key);
        RegisterKeysStep(old(commands), name, props, keys, i);
        var created := Create(q, EntryConfig(props[key]));
        if created.Throw? {
          RegisterThrownSticks(old(commands), name, props, keys, i + 1);
          return Thrown(created.message);
        }
        var data := created.value.Data();
        commands := commands[q := data];
        i := i + 1;
      }
      assert keys[..i] == keys;
      c := Normal;
    }
  }

  /** A successful `Command.parse(config, name)` registers every key of the
      configuration and keeps the unrelated commands. */
  lemma RegisterConfigTable(table: map<string, CommandData>, props: map<string, Value>, proto: Proto, name: string)
    requires RegisterConfig(table, Obj(props, proto), name).completion.Normal?
    ensures var t := RegisterConfig(table, Obj(props, proto), name).state;
            forall k :: k in props ==>
              Construct(QualifiedName(name, k), EntryConfig(props[k])).Ok?
              && QualifiedName(name, k) in t
              && t[QualifiedName(name, k)] == Construct(QualifiedName(name, k), EntryConfig(props[k])).value
    ensures var t := RegisterConfig(table, Obj(props, proto), name).state;
            forall n :: n in table && (forall k :: k in props ==> n != QualifiedName(name, k)) ==> n in t && t[n] == table[n]
  {
    var keys := SortedProps(props);
    assert RegisterConfig(table, Obj(props, proto), name) == RegisterKeys(table, name, props, keys);
    QualifiedNamesDistinct(name, keys);
    RegisterKeysBuiltAll(table, name, props, keys);
    RegisterKeysKeepsAll(table, name, props, keys);
  }

  /** `RegisterKeysBuilt` for keys that list every key of `props`. */
  lemma RegisterKeysBuiltAll(table: map<string, CommandData>, name: string, props: map<string, Value>, keys: seq<string>)
    requires forall k :: k in keys <==> k in props
    requires forall i, j :: 0 <= i < j < |keys| ==> QualifiedName(name, keys[i]) != QualifiedName(name, keys[j])
    requires RegisterKeys(table, name, props, keys).completion.Normal?
    ensures var t := RegisterKeys(table, name, props, keys).state;
            forall k :: k in props ==>
              Construct(QualifiedName(name, k), EntryConfig(props[k])).Ok?
              && QualifiedName(name, k) in t
              && t[QualifiedName(name, k)] == Construct(QualifiedName(name, k), EntryConfig(props[k])).value
  {
    RegisterKeysBuilt(table, name, props, keys);
    forall k | k in props
      ensures exists i :: 0 <= i < |keys| && keys[i] == k
    {
      assert k in keys;
    }
  }

  /** `RegisterKeysKeeps` for every command no key of `props` qualifies to. */
  lemma RegisterKeysKeepsAll(table: map<string, CommandData>, name: string, props: map<string, Value>, keys: seq<string>)
    requires forall i :: 0 <= i < |keys| ==> keys[i] in props
    ensures var t := RegisterKeys(table, name, props, keys).state;
            forall n :: n in table && (forall k :: k in props ==> n != QualifiedName(name, k)) ==> n in t && t[n] == table[n]
  {
    forall n | n in table && (forall k :: k in props ==> n != QualifiedName(name, k))
      ensures var t := RegisterKeys(table, name, props, keys).state; n in t && t[n] == table[n]
    {
      RegisterKeysKeeps(table, name, props, keys, n);
    }
  }
}
