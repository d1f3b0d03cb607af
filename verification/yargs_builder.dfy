/** The `yargs` adapter of src/builder/yargs.js: every registered command becomes a
    `yargs` command whose builder declares the command's options as flags. The
    `yargs` instance is modelled by the list of commands registered on it. */
module YargsBuilder {
  import opened Text
  import opened JsValue
  import opened ObjectUtils
  import opened Options
  import opened Commands

  /** The flag description `yargs.options` receives for one option. */
  datatype Flag = Flag(alias: Value, default: Value, desc: Value, demandOption: Value, kind: Value)

  /** A handler installed on a command: none (`null`), or the caller's handler wrapped so
      that it receives the command before the parsed arguments. */
  datatype Handler = NoHandler | Wrapped(handler: Value, command: CommandData)

  /** The object `convertCommand` returns; `options` is what its builder declares. */
  datatype YargsCommand = YargsCommand(command: string, description: Value, options: map<string, Flag>, handler: Handler)

  /** A call of the caller's handler. */
  datatype Invocation = Invocation(handler: Value, command: CommandData, argv: Value)

  /** The flag for one option (src/builder/yargs.js:33-42): alias, type and required
      flag copied, `description` as `desc`, and a `null` default dropped to `undefined`. */
  function ToFlag(o: OptionData): (f: Flag)
    ensures f.alias == o.alias && f.kind == o.kind
    ensures f.desc == o.description && f.demandOption == o.required
    ensures o.default == Null ==> f.default == Undefined
    ensures o.default != Null ==> f.default == o.default
  {
    Flag(o.alias, if o.default == Null then Undefined else o.default, o.description, o.required, o.kind)
  }

  /** The options of a command as the JavaScript object `iterate` walks. */
  function OptionsObject(options: map<string, OptionData>): Value
  {
    Object(map k | k in options :: options[k].AsValue())
  }

  /** The callback of `convertOptions` answers with the flag object it stores, which is
      always truthy. */
  function StoreCallback(k: string, v: Value): Value
  {
    Object(map["alias" := Undefined])
  }

  /** Because the callback is always truthy, `iterate` hands it every key, in ascending
      order. */
  lemma ConvertVisitsEveryOption(props: map<string, Value>)
    ensures IterateCalls(Object(props), StoreCallback) == SortedKeys(props.Keys)
  {
    var keys := SortedProps(props);
    assert Every(keys, props, StoreCallback);
  }

  /** The keys `convertOptions` visits are exactly the option names, in ascending order. */
  lemma OptionsVisited(options: map<string, OptionData>)
    ensures IterateCalls(OptionsObject(options), StoreCallback) == SortedKeys(options.Keys)
  {
    var props := OptionsObject(options).props;
    assert props.Keys == options.Keys;
    ConvertVisitsEveryOption(props);
  }

  /** `convertOptions(options)` as a value: one flag per option key. */
  function Flags(options: map<string, OptionData>): (r: map<string, Flag>)
    ensures r.Keys == options.Keys
    ensures forall k :: k in options ==> r[k] == ToFlag(options[k])
  {
    map k | k in options :: ToFlag(options[k])
  }

  /** `convertOptions(options)` (src/builder/yargs.js:30-44): `iterate` visits every
      option, and the callback stores the flag of each. */
  method ConvertOptions(options: map<string, OptionData>) returns (r: map<string, Flag>)
    ensures r == Flags(options)
  {
    var visited := IterateCalls(OptionsObject(options), StoreCallback);
    OptionsVisited(options);
    r := StoreFlags(options, visited);
  }

  /** The callback of `convertOptions`, run on each visited key in turn. */
  method StoreFlags(options: map<string, OptionData>, keys: seq<string>) returns (r: map<string, Flag>)
    requires forall k :: k in keys <==> k in options
    ensures r == Flags(options)
  {
    r := map[];
    var i := 0;
    while i < |keys|
      invariant 0 <= i <= |keys|
      invariant forall j :: 0 <= j < i ==> keys[j] in r
      invariant forall k :: k in r ==> k in options && r[k] == ToFlag(options[k])
    {
      r := r[keys[i] := ToFlag(options[keys[i]])];
      i := i + 1;
    }
    forall k | k in options ensures k in r {
      var j :| 0 <= j < |keys| && keys[j] == k;
    }
  }

  /** `convertCommand(command, handler)` (src/builder/yargs.js:11-21). */
  function ConvertCommand(c: CommandData, handler: Value): (y: YargsCommand)
    ensures y.command == c.name && y.description == c.description
    ensures y.options == Flags(c.options)
    ensures y.handler == NoHandler <==> !handler.Fn?
  {
    YargsCommand(c.name, c.description, Flags(c.options), if handler.Fn? then Wrapped(handler, c) else NoHandler)
  }

  /** What `yargs` calls when the command runs: the wrapped handler receives the command
      and then the arguments. */
  function Run(y: YargsCommand, argv: Value): Optional<Invocation>
  {
    match y.handler
    case NoHandler => None
    case Wrapped(h, c) => Some(Invocation(h, c, argv))
  }

  /** A supplied function is called with the command it was converted from. */
  lemma HandlerReceivesCommand(c: CommandData, handler: Value, argv: Value)
    ensures handler.Fn? ==> Run(ConvertCommand(c, handler), argv) == Some(Invocation(handler, c, argv))
    ensures !handler.Fn? ==> Run(ConvertCommand(c, handler), argv) == None
  {
  }

  /** The commands a `yargs` instance has been given. */
  class Yargs {
    var commands: seq<YargsCommand>

    constructor ()
      ensures commands == []
    {
      commands := [];
    }

    /** `yargs.command(definition)`. */
    method Command(definition: YargsCommand)
      modifies this
      ensures commands == old(commands) + [definition]
    {
      commands := commands + [definition];
    }
  }

  /** The commands `builderYargs` registers, in the order it visits the registry. */
  function Converted(registry: map<string, CommandData>, keys: seq<string>, handler: Value): seq<YargsCommand>
    requires forall i :: 0 <= i < |keys| ==> keys[i] in registry
  {
    if keys == [] then [] else Converted(registry, keys[..|keys| - 1], handler) + [ConvertCommand(registry[keys[|keys| - 1]], handler)]
  }

  /** One converted command per key, in key order. */
  lemma {:induction false} ConvertedShape(registry: map<string, CommandData>, keys: seq<string>, handler: Value)
    requires forall i :: 0 <= i < |keys| ==> keys[i] in registry
    ensures |Converted(registry, keys, handler)| == |keys|
    ensures forall i :: 0 <= i < |keys| ==> Converted(registry, keys, handler)[i] == ConvertCommand(registry[keys[i]], handler)
  {
    if keys != [] {
      ConvertedShape(registry, keys[..|keys| - 1], handler);
    }
  }

  lemma ConvertedStep(registry: map<string, CommandData>, keys: seq<string>, handler: Value, i: nat)
    requires forall j :: 0 <= j < |keys| ==> keys[j] in registry
    requires i < |keys|
    ensures Converted(registry, keys[..i + 1], handler) == Converted(registry, keys[..i], handler) + [ConvertCommand(registry[keys[i]], handler)]
  {
    assert keys[..i + 1][..i] == keys[..i];
  }

  /** `builderYargs(yargs, commands, handler)` (src/builder/yargs.js:53-59): one `yargs`
      command per registered command, taken from `Object.values` in ascending name order. */
  method BuilderYargs(y: Yargs, registry: map<string, CommandData>, handler: Value)
    modifies y
    ensures y.commands == old(y.commands) + Converted(registry, SortedKeys(registry.Keys), handler)
  {
    AddCommands(y, registry, SortedKeys(registry.Keys), handler);
  }

  /** The `for … of` loop of `builderYargs`, run on each key in turn. */
  method AddCommands(y: Yargs, registry: map<string, CommandData>, keys: seq<string>, handler: Value)
    requires forall i :: 0 <= i < |keys| ==> keys[i] in registry
    modifies y
    ensures y.commands == old(y.commands) + Converted(registry, keys, handler)
  {
    var i := 0;
    while i < |keys|
      invariant 0 <= i <= |keys|
      invariant y.commands == old(y.commands) + Converted(registry, keys[..i], handler)
    {
      ConvertedStep(registry, keys, handler, i);
      y.Command(ConvertCommand(registry[keys[i]], handler));
      i := i + 1;
    }
    assert keys[..i] == keys;
  }

  /** Every registered command, and nothing else, is registered on `yargs` exactly once. */
  lemma OnePerCommand(registry: map<string, CommandData>, handler: Value)
    ensures var r := Converted(registry, SortedKeys(registry.Keys), handler);
            |r| == |registry|
            && forall k :: k in registry ==> exists i :: 0 <= i < |r| && r[i] == ConvertCommand(registry[k], handler)
  {
    var keys := SortedKeys(registry.Keys);
    OnePerKey(registry, keys, handler);
  }

  lemma OnePerKey(registry: map<string, CommandData>, keys: seq<string>, handler: Value)
    requires |keys| == |registry|
    requires forall k :: k in keys <==> k in registry
    ensures var r := Converted(registry, keys, handler);
            |r| == |registry|
            && forall k :: k in registry ==> exists i :: 0 <= i < |r| && r[i] == ConvertCommand(registry[k], handler)
  {
    ConvertedShape(registry, keys, handler);
    var r := Converted(registry, keys, handler);
    forall k | k in registry
      ensures exists i :: 0 <= i < |r| && r[i] == ConvertCommand(registry[k], handler)
    {
      var i :| 0 <= i < |keys| && keys[i] == k;
      assert r[i] == ConvertCommand(registry[k], handler);
    }
  }

  /** `Command.configure(cli, name, handler)` (src/Command.js:96-99): loads the builder
      named `name` and hands it the registry; `yargs` is the only builder there is. */
  method Configure(y: Yargs, registry: Registry, name: string, handler: Value) returns (c: Completion)
    modifies y
    ensures name == "yargs" ==>
              c == Normal && y.commands == old(y.commands) + Converted(registry.commands, SortedKeys(registry.commands.Keys), handler)
    ensures name != "yargs" ==> c == Thrown("Cannot find module './builder/" + name + "'") && y.commands == old(y.commands)
  {
    if name != "yargs" {
      return Thrown("Cannot find module './builder/" + name + "'");
    }
    BuilderYargs(y, registry.commands, handler);
    c := Normal;
  }
}
