/** `parseCommands(commands, prefix)` of src/tools/parse-commands.js: every option of
    every command is turned into its text form without the leading `name|`, and with a
    prefix every command moves from `name` to `prefix + name`. The table is rewritten in
    place; command and option keys are visited in ascending order. */
module ParseCommandsTool {
  import opened Text
  import opened JsValue
  import opened Options

  /** A command table: command name to the command's options object. */
  type Table = map<string, map<string, Value>>

  /** `s.substr(2)`. */
  function DropTwo(s: string): (r: string)
    ensures |s| >= 2 ==> s == s[..2] + r
    ensures |s| < 2 ==> r == ""
  {
    if |s| < 2 then "" else s[2..]
  }

  /** The new value of the option stored under `key` (src/tools/parse-commands.js:17-19):
      the `''` entry is kept, any other value is printed with `toString()` and loses its
      first two characters; `toString` of `null` or `undefined` throws. */
  function Stringify(key: string, v: Value): (r: Result<Value>)
    ensures key == "" ==> r == Ok(v)
    ensures key != "" ==> (r.Throw? <==> v == Undefined || v == Null)
    ensures key != "" && r.Ok? ==> r.value.Str? && |r.value.s| == if |ToJsString(v)| < 2 then 0 else |ToJsString(v)| - 2
    ensures key != "" && r.Ok? && |ToJsString(v)| >= 2 ==> ToJsString(v) == ToJsString(v)[..2] + r.value.s
  {
    if key == "" then Ok(v)
    else if v == Undefined || v == Null then
      Throw("TypeError: Cannot read properties of " + ToJsString(v) + " (reading 'toString')")
    else Ok(Str(DropTwo(ToJsString(v))))
  }

  /** The option values `toString` can be called on. */
  predicate Stringifiable(opts: map<string, Value>)
  {
    forall k :: k in opts && k != "" ==> opts[k] != Undefined && opts[k] != Null
  }

  /** The options object once every entry has been rewritten. */
  function StringifiedOptions(opts: map<string, Value>): (r: map<string, Value>)
    requires Stringifiable(opts)
    ensures r.Keys == opts.Keys
    ensures "" in opts ==> r[""] == opts[""]
  {
    map k | k in opts :: Stringify(k, opts[k]).value
  }

  /** The inner loop (src/tools/parse-commands.js:15-20) over the option keys `keys`:
      each one is rewritten in turn, and an exception leaves the entries already
      rewritten as they are. */
  function StringifyKeys(opts: map<string, Value>, keys: seq<string>): Outcome<map<string, Value>>
  {
    if keys == [] then Outcome(opts, Normal)
    else
      var prev := StringifyKeys(opts, keys[..|keys| - 1]);
      var k := keys[|keys| - 1];
      if prev.completion.Thrown? then prev
      else match Stringify(k, Field(prev.state, k))
        case Throw(m) => Outcome(prev.state, Thrown(m))
        case Ok(v) => Outcome(prev.state[k := v], Normal)
  }

  lemma StringifyKeysStep(opts: map<string, Value>, keys: seq<string>, i: nat)
    requires i < |keys|
    ensures var prev := StringifyKeys(opts, keys[..i]);
            StringifyKeys(opts, keys[..i + 1])
            == if prev.completion.Thrown? then prev
               else match Stringify(keys[i], Field(prev.state, keys[i]))
                 case Throw(m) => Outcome(prev.state, Thrown(m))
                 case Ok(v) => Outcome(prev.state[keys[i] := v], Normal)
  {
    assert keys[..i + 1][..i] == keys[..i];
  }

  /** Once an exception is thrown, the remaining keys change nothing. */
  lemma {:induction false} StringifyThrownSticks(opts: map<string, Value>, keys: seq<string>, j: nat)
    requires j <= |keys|
    requires StringifyKeys(opts, keys[..j]).completion.Thrown?
    ensures StringifyKeys(opts, keys) == StringifyKeys(opts, keys[..j])
  {
    if |keys| == j {
      assert keys[..j] == keys;
    } else {
      var init := keys[..|keys| - 1];
      assert init[..j] == keys[..j];
      StringifyThrownSticks(opts, init, j);
    }
  }

  /** The options object keeps its keys, even when an exception stops the loop. */
  lemma {:induction false} StringifyKeepsKeys(opts: map<string, Value>, keys: seq<string>)
    requires forall i :: 0 <= i < |keys| ==> keys[i] in opts
    ensures StringifyKeys(opts, keys).state.Keys == opts.Keys
  {
    if keys != [] {
      StringifyKeepsKeys(opts, keys[..|keys| - 1]);
    }
  }

  /** Over distinct keys of the object, the loop ends normally exactly when no visited
      option is `null` or `undefined`; it then rewrites the visited entries and leaves
      the others alone. */
  lemma {:induction false} StringifyKeysSpec(opts: map<string, Value>, keys: seq<string>)
    requires forall i :: 0 <= i < |keys| ==> keys[i] in opts
    requires forall i, j :: 0 <= i < j < |keys| ==> keys[i] != keys[j]
    ensures var o := StringifyKeys(opts, keys);
            o.completion.Normal? <==> forall i :: 0 <= i < |keys| && keys[i] != "" ==> opts[keys[i]] != Undefined && opts[keys[i]] != Null
    ensures var o := StringifyKeys(opts, keys);
            o.completion.Normal? ==>
              o.state.Keys == opts.Keys
              && forall k :: k in opts ==> o.state[k] == if k in keys then Stringify(k, opts[k]).value else opts[k]
  {
    if keys != [] {
      var init := keys[..|keys| - 1];
      var k := keys[|keys| - 1];
      StringifyKeysSpec(opts, init);
      assert forall i :: 0 <= i < |init| ==> init[i] == keys[i];
      assert k !in init;
      var prev := StringifyKeys(opts, init);
      if prev.completion.Normal? {
        assert Field(prev.state, k) == opts[k];
      } else {
        var i :| 0 <= i < |init| && init[i] != "" && (opts[init[i]] == Undefined || opts[init[i]] == Null);
        assert keys[i] == init[i];
      }
    }
  }

  /** Over all the keys of a stringifiable object, the loop yields the rewritten object. */
  lemma StringifyAllKeys(opts: map<string, Value>, keys: seq<string>)
    requires forall k :: k in keys <==> k in opts
    requires forall i, j :: 0 <= i < j < |keys| ==> keys[i] != keys[j]
    requires Stringifiable(opts)
    ensures StringifyKeys(opts, keys) == Outcome(StringifiedOptions(opts), Normal)
  {
    forall i | 0 <= i < |keys| && keys[i] != ""
      ensures opts[keys[i]] != Undefined && opts[keys[i]] != Null
    {
      assert keys[i] in opts;
    }
    StringifyKeysSpec(opts, keys);
    var o := StringifyKeys(opts, keys);
    forall k | k in opts ensures o.state[k] == StringifiedOptions(opts)[k] {
      assert k in keys;
    }
    assert o.state == StringifiedOptions(opts);
  }

  /** The same, for the keys in the ascending order the loop visits them. */
  lemma StringifySorted(opts: map<string, Value>)
    requires Stringifiable(opts)
    ensures StringifyKeys(opts, SortedKeys(opts.Keys)) == Outcome(StringifiedOptions(opts), Normal)
  {
    var keys := SortedKeys(opts.Keys);
    StringifyAllKeys(opts, keys);
  }

  /** Processing one command (src/tools/parse-commands.js:14-25): its options are
      rewritten and, with a prefix, the command is deleted and stored again under
      `prefix + name`. A name that is no longer in the table makes `Object.keys(undefined)`
      throw. */
  function ParseName(table: Table, name: string, prefix: string): Outcome<Table>
  {
    if name !in table then Outcome(table, Thrown("TypeError: Cannot convert undefined or null to object"))
    else
      var o := StringifyKeys(table[name], SortedKeys(table[name].Keys));
      var updated := table[name := o.state];
      if o.completion.Thrown? then Outcome(updated, o.completion)
      else if prefix != "" then Outcome((updated - {name})[prefix + name := o.state], Normal)
      else Outcome(updated, Normal)
  }

  /** The outer loop over the command names `names`, stopped by the first exception. */
  function ParseNames(table: Table, names: seq<string>, prefix: string): Outcome<Table>
  {
    if names == [] then Outcome(table, Normal)
    else
      var prev := ParseNames(table, names[..|names| - 1], prefix);
      if prev.completion.Thrown? then prev
      else ParseName(prev.state, names[|names| - 1], prefix)
  }

  lemma ParseNamesStep(table: Table, names: seq<string>, prefix: string, i: nat)
    requires i < |names|
    ensures var prev := ParseNames(table, names[..i], prefix);
            ParseNames(table, names[..i + 1], prefix)
            == if prev.completion.Thrown? then prev else ParseName(prev.state, names[i], prefix)
  {
    assert names[..i + 1][..i] == names[..i];
  }

  /** Once a command throws, the remaining commands are not processed. */
  lemma {:induction false} ParseThrownSticks(table: Table, names: seq<string>, prefix: string, j: nat)
    requires j <= |names|
    requires ParseNames(table, names[..j], prefix).completion.Thrown?
    ensures ParseNames(table, names, prefix) == ParseNames(table, names[..j], prefix)
  {
    if |names| == j {
      assert names[..j] == names;
    } else {
      var init := names[..|names| - 1];
      assert init[..j] == names[..j];
      ParseThrownSticks(table, init, prefix, j);
    }
  }

  /** No renamed command lands on the name of another command. */
  predicate NoCollision(table: Table, prefix: string)
  {
    prefix == "" || forall a :: a in table ==> prefix + a !in table
  }

  /** The table after the commands in `done` have been processed: the others are as they
      were, the processed ones sit rewritten under their new names, and nothing else is
      there. */
  predicate Processed(table: Table, state: Table, done: seq<string>, prefix: string)
    requires forall k :: k in done ==> k in table && Stringifiable(table[k])
  {
    && (forall k :: k in table && k !in done ==> k in state && state[k] == table[k])
    && (forall k :: k in done ==> prefix + k in state && state[prefix + k] == StringifiedOptions(table[k]))
    && (forall x :: x in state ==> (x in table && x !in done) || exists k :: k in done && x == prefix + k)
  }

  /** The table once command `name` has been processed without an exception. */
  function Moved(table: Table, name: string, prefix: string, st: map<string, Value>): Table
  {
    if prefix != "" then (table[name := st] - {name})[prefix + name := st] else table[name := st]
  }

  lemma ParseNameNormal(state: Table, name: string, prefix: string)
    requires name in state && Stringifiable(state[name])
    ensures ParseName(state, name, prefix) == Outcome(Moved(state, name, prefix, StringifiedOptions(state[name])), Normal)
  {
    StringifySorted(state[name]);
  }

  lemma ProcessedStep(table: Table, state: Table, done: seq<string>, name: string, prefix: string)
    requires forall k :: k in table ==> Stringifiable(table[k])
    requires NoCollision(table, prefix)
    requires forall k :: k in done ==> k in table
    requires name in table && name !in done
    requires Processed(table, state, done, prefix)
    ensures ParseName(state, name, prefix).completion == Normal
    ensures Processed(table, ParseName(state, name, prefix).state, done + [name], prefix)
  {
    assert name in state && state[name] == table[name];
    ParseNameNormal(state, name, prefix);
    var st := StringifiedOptions(table[name]);
    MovedKeepsOthers(table, state, done, name, prefix, st);
    MovedPlacesDone(table, state, done, name, prefix, st);
    MovedAddsNothing(table, state, done, name, prefix, st);
  }

  lemma MovedKeepsOthers(table: Table, state: Table, done: seq<string>, name: string, prefix: string, st: map<string, Value>)
    requires forall k :: k in table ==> Stringifiable(table[k])
    requires NoCollision(table, prefix)
    requires forall k :: k in done ==> k in table
    requires name in table && name !in done
    requires Processed(table, state, done, prefix)
    ensures var next := Moved(state, name, prefix, st);
            forall k :: k in table && k !in done + [name] ==> k in next && next[k] == table[k]
  {
    var next := Moved(state, name, prefix, st);
    forall k | k in table && k !in done + [name]
      ensures k in next && next[k] == table[k]
    {
      assert k != name && k !in done;
      assert k in state && state[k] == table[k];
      if prefix != "" {
        assert prefix + name !in table;
      }
    }
  }

  lemma MovedPlacesDone(table: Table, state: Table, done: seq<string>, name: string, prefix: string, st: map<string, Value>)
    requires forall k :: k in table ==> Stringifiable(table[k])
    requires NoCollision(table, prefix)
    requires forall k :: k in done ==> k in table
    requires name in table && name !in done
    requires Processed(table, state, done, prefix)
    requires st == StringifiedOptions(table[name])
    ensures var next := Moved(state, name, prefix, st);
            forall k :: k in done + [name] ==> prefix + k in next && next[prefix + k] == StringifiedOptions(table[k])
  {
    var next := Moved(state, name, prefix, st);
    forall k | k in done + [name]
      ensures prefix + k in next && next[prefix + k] == StringifiedOptions(table[k])
    {
      if k == name {
        if prefix == "" {
          assert prefix + k == name;
        }
      } else {
        assert k in done;
        assert prefix + k in state && state[prefix + k] == StringifiedOptions(table[k]);
        if prefix != "" {
          assert prefix + k !in table;
        }
        PrefixInjective(prefix, k, name);
      }
    }
  }

  /** Distinct names stay distinct under the same prefix. */
  lemma PrefixInjective(p: string, a: string, b: string)
    requires a != b
    ensures p + a != p + b
  {
    assert (p + a)[|p|..] == a;
    assert (p + b)[|p|..] == b;
  }

  lemma MovedAddsNothing(table: Table, state: Table, done: seq<string>, name: string, prefix: string, st: map<string, Value>)
    requires forall k :: k in table ==> Stringifiable(table[k])
    requires forall k :: k in done ==> k in table
    requires name in table && name !in done
    requires Processed(table, state, done, prefix)
    ensures var next := Moved(state, name, prefix, st);
            forall x :: x in next ==> (x in table && x !in done + [name]) || exists k :: k in done + [name] && x == prefix + k
  {
    var next := Moved(state, name, prefix, st);
    var done' := done + [name];
    forall x | x in next
      ensures (x in table && x !in done') || exists k :: k in done' && x == prefix + k
    {
      if x == prefix + name {
        assert name in done';
      } else {
        assert x in state;
        if x in table && x !in done {
        } else {
          var k :| k in done && x == prefix + k;
          assert k in done';
        }
      }
    }
  }

  /** Without collisions and with stringifiable options, every command ends up under
      `prefix + name` with its options rewritten, and the table holds nothing else. */
  lemma {:induction false} ParseAllNames(table: Table, names: seq<string>, prefix: string)
    requires forall k :: k in table ==> Stringifiable(table[k])
    requires NoCollision(table, prefix)
    requires forall i :: 0 <= i < |names| ==> names[i] in table
    requires forall i, j :: 0 <= i < j < |names| ==> names[i] != names[j]
    ensures ParseNames(table, names, prefix).completion == Normal
    ensures Processed(table, ParseNames(table, names, prefix).state, names, prefix)
  {
    if names == [] {
    } else {
      var init := names[..|names| - 1];
      ParseAllNames(table, init, prefix);
      assert forall i :: 0 <= i < |init| ==> init[i] == names[i];
      assert names == init + [names[|names| - 1]];
      ProcessedStep(table, ParseNames(table, init, prefix).state, init, names[|names| - 1], prefix);
    }
  }

  /** The whole call on a table whose options can all be printed and whose renamed
      commands do not collide with existing ones: every command `k` is found under
      `prefix + k` with its options rewritten, the `''` entry unchanged, and nothing else
      is left; an empty prefix keeps every name. */
  lemma ParseCommandsRenames(table: Table, prefix: string)
    requires forall k :: k in table ==> Stringifiable(table[k])
    requires NoCollision(table, prefix)
    ensures var r := ParseNames(table, SortedKeys(table.Keys), prefix);
            r.completion == Normal
            && (forall k :: k in table ==> prefix + k in r.state && r.state[prefix + k] == StringifiedOptions(table[k]))
            && (forall x :: x in r.state ==> exists k :: k in table && x == prefix + k)
  {
    var names := SortedKeys(table.Keys);
    ParseAllNames(table, names, prefix);
    var r := ParseNames(table, names, prefix);
    assert Processed(table, r.state, names, prefix);
    forall k | k in table ensures prefix + k in r.state && r.state[prefix + k] == StringifiedOptions(table[k]) {
      assert k in names;
    }
    forall x | x in r.state ensures exists k :: k in table && x == prefix + k {
      assert !(x in table && x !in names);
      var k :| k in names && x == prefix + k;
      assert k in table;
    }
  }

  /** A parsed option of one-letter name `n` prints as `n|rest`, and the rewrite leaves
      `rest`; parsing `n|rest` again, as the command parser does with an option stored
      as text under key `n`, gives back its name, description, alias, type and required
      flag. */
  lemma StrippedOptionReparses(d: OptionData)
    requires ParsedShape(d) && |d.name.s| == 1
    ensures var r := Stringify(d.name.s, d.AsValue());
            r.Ok? && r.value.Str? && OptionText(d) == d.name.s + "|" + r.value.s
    ensures var e := ParseOnto(Defaults, d.name.s + "|" + Stringify(d.name.s, d.AsValue()).value.s);
            e.Ok? && e.value.name == d.name && e.value.description == d.description
            && e.value.alias == d.alias && e.value.kind == d.kind && e.value.required == d.required
  {
    ToStringShape(d);
    var pieces := TextPieces(d);
    var text := OptionText(d);
    assert text == pieces[0] + "|" + Join(pieces[1..], "|");
    assert text[..2] == d.name.s + "|";
    ShapeRoundTrip(d);
  }

  /** The command table `parseCommands` rewrites. */
  class CommandTable {
    var commands: Table

    constructor (commands: Table)
      ensures this.commands == commands
    {
      this.commands := commands;
    }

    /** `parseCommands(commands, prefix)` (src/tools/parse-commands.js:7-28); an empty
        table is left untouched. */
    method ParseCommands(prefix: string) returns (c: Completion)
      modifies this
      ensures Outcome(commands, c) == ParseNames(old(commands), SortedKeys(old(commands).Keys), prefix)
      ensures old(commands) == map[] ==> commands == map[] && c == Normal
    {
      var names := SortedKeys(commands.Keys);
      c := Normal;
      if |names| > 0 {
        c := ParseEach(names, prefix);
      }
    }

    /** The loop over `names`: each command is processed in turn until one throws. */
    method ParseEach(names: seq<string>, prefix: string) returns (c: Completion)
      modifies this
      ensures Outcome(commands, c) == ParseNames(old(commands), names, prefix)
    {
      var i := 0;
      while i < |names|
        invariant 0 <= i <= |names|
        invariant Outcome(commands, Normal) == ParseNames(old(commands), names[..i], prefix)
      {
        ParseNamesStep(old(commands), names, prefix, i);
        var name := names[i];
        if name !in commands {
          c := Thrown("TypeError: Cannot convert undefined or null to object");
          ParseThrownSticks(old(commands), names, prefix, i + 1);
          return;
        }
        var o := StringifyOptions(commands[name], SortedKeys(commands[name].Keys));
        commands := commands[name := o.state];
        if o.completion.Thrown? {
          ParseThrownSticks(old(commands), names, prefix, i + 1);
          return o.completion;
        }
        if prefix != "" {
          commands := (commands - {name})[prefix + name := o.state];
        }
        i := i + 1;
      }
      assert names[..i] == names;
      c := Normal;
    }
  }

  /** The inner loop: the options object is rewritten key by key, and an exception
      leaves the entries already rewritten. */
  method StringifyOptions(opts: map<string, Value>, keys: seq<string>) returns (o: Outcome<map<string, Value>>)
    ensures o == StringifyKeys(opts, keys)
  {
    var state := opts;
    var i := 0;
    while i < |keys|
      invariant 0 <= i <= |keys|
      invariant StringifyKeys(opts, keys[..i]) == Outcome(state, Normal)
    {
      StringifyKeysStep(opts, keys, i);
      var r := Stringify(keys[i], Field(state, keys[i]));
      if r.Throw? {
        StringifyThrownSticks(opts, keys, i + 1);
        return Outcome(state, Thrown(r.message));
      }
      state := state[keys[i] := r.value];
      i := i + 1;
    }
    assert keys[..i] == keys;
    o := Outcome(state, Normal);
  }
}
