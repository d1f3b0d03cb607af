/** The `readme` command of src/commands/readme.js: the commands documented in a project's
    `src/commands` directory become the context of the README template, one table per
    command with a column for each of the option properties `name`, `alias`,
    `description`, `type` and `required`. Aligning a column (`pad-values`) is a parameter. */
module ReadmeCmd {
  import opened Text
  import opened JsValue
  import opened CommentTools
  import opened ParseCommandsTool
  import opened Options

  /** The option properties shown, one column each (src/commands/readme.js:46). */
  const Props: seq<string> := ["name", "alias", "description", "type", "required"]

  /** The column titles, in the same order (src/commands/readme.js:47). */
  const Titles: seq<string> := ["Nombre", "Alias", "Descripción", "Tipo", "Requerido"]

  /** What the template receives for one command. */
  datatype ReadmeEntry = ReadmeEntry(description: Value, headers: seq<seq<string>>, name: string, options: seq<seq<string>>)

  /** How one property of an option is shown (src/commands/readme.js:102-114): the name
      after `-`, the alias after `--`, a boolean as a check mark or nothing, and anything
      else as it is. */
  function Cell(prop: string, v: Value): (c: Value)
    ensures prop == "name" ==> c == Str("-" + ToJsString(v))
    ensures prop == "alias" ==> c == Str("--" + ToJsString(v))
    ensures prop != "name" && prop != "alias" && v == Bool(true) ==> c == Str(":heavy_check_mark:")
    ensures prop != "name" && prop != "alias" && v == Bool(false) ==> c == Str("")
    ensures prop != "name" && prop != "alias" && !v.Bool? ==> c == v
  {
    if prop == "name" then Str("-" + ToJsString(v))
    else if prop == "alias" then Str("--" + ToJsString(v))
    else if v.Bool? then Str(if v.b then ":heavy_check_mark:" else "")
    else v
  }

  /** The cells of one option, one per property; reading a property of `null` or
      `undefined` throws. */
  function OptionRow(o: Value): (r: Result<seq<Value>>)
    ensures r.Throw? <==> o == Undefined || o == Null
    ensures r.Ok? ==> |r.value| == |Props|
  {
    if o == Undefined || o == Null then Throw(GetProp(o, Props[0]).message)
    else Ok([Cell("name", GetProp(o, "name").value), Cell("alias", GetProp(o, "alias").value),
             Cell("description", GetProp(o, "description").value), Cell("type", GetProp(o, "type").value),
             Cell("required", GetProp(o, "required").value)])
  }

  /** The row of an option instance: `-name`, `--alias`, the description and type as
      they are, and a check mark exactly when the option is required. */
  lemma OptionInstanceRow(d: OptionData)
    requires d.required.Bool? && !d.description.Bool? && !d.kind.Bool?
    ensures OptionRow(d.AsValue()) == Ok([Str("-" + ToJsString(d.name)), Str("--" + ToJsString(d.alias)), d.description, d.kind,
                                          Str(if d.required.b then ":heavy_check_mark:" else "")])
  {
    var v := d.AsValue();
    assert GetProp(v, "name") == Ok(d.name) && GetProp(v, "alias") == Ok(d.alias);
    assert GetProp(v, "description") == Ok(d.description) && GetProp(v, "type") == Ok(d.kind);
    assert GetProp(v, "required") == Ok(d.required);
  }

  /** The names of `keys` that are not empty, in order. */
  function NonEmpty(keys: seq<string>): (r: seq<string>)
    ensures |r| <= |keys|
    ensures forall i :: 0 <= i < |r| ==> r[i] != "" && r[i] in keys
    ensures forall i :: 0 <= i < |keys| && keys[i] != "" ==> keys[i] in r
  {
    if keys == [] then []
    else
      var init := NonEmpty(keys[..|keys| - 1]);
      var k := keys[|keys| - 1];
      if k == "" then init else init + [k]
  }

  /** The option rows of a command: one per non-empty key, in key order. */
  function Rows(config: map<string, Value>, keys: seq<string>): (r: Result<seq<seq<Value>>>)
    requires forall i :: 0 <= i < |keys| ==> keys[i] in config
    ensures r.Ok? ==> forall i :: 0 <= i < |r.value| ==> |r.value[i]| == |Props|
  {
    if keys == [] then Ok([])
    else
      var prev := Rows(config, keys[..|keys| - 1]);
      var k := keys[|keys| - 1];
      if prev.Throw? || k == "" then prev
      else match OptionRow(config[k])
        case Throw(m) => Throw(m)
        case Ok(row) => Ok(prev.value + [row])
  }

  /** The rows throw exactly when the option under some non-empty key is `null` or
      `undefined`. */
  lemma {:induction false} RowsThrow(config: map<string, Value>, keys: seq<string>)
    requires forall i :: 0 <= i < |keys| ==> keys[i] in config
    ensures var ne := NonEmpty(keys);
            Rows(config, keys).Throw? <==> exists i :: 0 <= i < |ne| && (config[ne[i]] == Undefined || config[ne[i]] == Null)
  {
    if keys != [] {
      var init := keys[..|keys| - 1];
      RowsThrow(config, init);
      var ne := NonEmpty(init);
      var k := keys[|keys| - 1];
      if k != "" {
        var all := NonEmpty(keys);
        assert all == ne + [k];
        assert forall i :: 0 <= i < |ne| ==> all[i] == ne[i];
        assert all[|ne|] == k;
      }
    }
  }

  /** Only the non-empty keys give rows, one each, holding the cells of the option
      stored under that key. */
  lemma {:induction false} RowsValues(config: map<string, Value>, keys: seq<string>)
    requires forall i :: 0 <= i < |keys| ==> keys[i] in config
    ensures var ne := NonEmpty(keys);
            var r := Rows(config, keys);
            r.Ok? ==> |r.value| == |ne| && forall i :: 0 <= i < |ne| ==> OptionRow(config[ne[i]]) == Ok(r.value[i])
  {
    if keys != [] {
      var init := keys[..|keys| - 1];
      RowsValues(config, init);
      var ne := NonEmpty(init);
      var k := keys[|keys| - 1];
      var r := Rows(config, keys);
      if k != "" && r.Ok? {
        var all := NonEmpty(keys);
        assert all == ne + [k];
        var row := OptionRow(config[k]);
        assert Rows(config, init).Ok? && row.Ok?;
        assert r.value == Rows(config, init).value + [row.value];
      }
    }
  }

  /** Column `j` of a table of rows. */
  function ColumnOf(rows: seq<seq<Value>>, j: nat): (c: seq<Value>)
    requires forall i :: 0 <= i < |rows| ==> j < |rows[i]|
    ensures |c| == |rows|
  {
    seq(|rows|, i requires 0 <= i < |rows| => rows[i][j])
  }

  /** `output[name].push(value)` for every property of one row. */
  function AddRow(columns: seq<seq<Value>>, row: seq<Value>): (r: seq<seq<Value>>)
    requires |row| == |columns|
    ensures |r| == |columns| && forall j :: 0 <= j < |r| ==> r[j] == columns[j] + [row[j]]
  {
    seq(|columns|, j requires 0 <= j < |columns| => columns[j] + [row[j]])
  }

  /** The columns after `splitOptions` (src/commands/readme.js:91-120) has visited `keys`. */
  function SplitAll(columns: seq<seq<Value>>, config: map<string, Value>, keys: seq<string>): (r: Result<seq<seq<Value>>>)
    requires |columns| == |Props|
    requires forall i :: 0 <= i < |keys| ==> keys[i] in config
    ensures r.Ok? ==> |r.value| == |Props|
  {
    if keys == [] then Ok(columns)
    else
      var prev := SplitAll(columns, config, keys[..|keys| - 1]);
      var k := keys[|keys| - 1];
      if prev.Throw? || k == "" then prev
      else match OptionRow(config[k])
        case Throw(m) => Throw(m)
        case Ok(row) => Ok(AddRow(prev.value, row))
  }

  /** Splitting appends to each column the matching cell of every option row, in order,
      and fails exactly when the rows do. */
  lemma {:induction false} SplitColumns(columns: seq<seq<Value>>, config: map<string, Value>, keys: seq<string>)
    requires |columns| == |Props|
    requires forall i :: 0 <= i < |keys| ==> keys[i] in config
    ensures SplitAll(columns, config, keys).Throw? <==> Rows(config, keys).Throw?
    ensures SplitAll(columns, config, keys).Throw? ==> SplitAll(columns, config, keys).message == Rows(config, keys).message
    ensures SplitAll(columns, config, keys).Ok? ==>
              forall j :: 0 <= j < |Props| ==>
                SplitAll(columns, config, keys).value[j] == columns[j] + ColumnOf(Rows(config, keys).value, j)
  {
    if keys != [] {
      var init := keys[..|keys| - 1];
      SplitColumns(columns, config, init);
      var k := keys[|keys| - 1];
      if SplitAll(columns, config, keys).Ok? && k != "" {
        var rows := Rows(config, init).value;
        var row := OptionRow(config[k]).value;
        forall j | 0 <= j < |Props|
          ensures SplitAll(columns, config, keys).value[j] == columns[j] + ColumnOf(rows + [row], j)
        {
          assert ColumnOf(rows + [row], j) == ColumnOf(rows, j) + [row[j]];
        }
      }
    }
  }

  /** Each column starts with its title (src/commands/readme.js:49). */
  function TitleColumns(): (r: seq<seq<Value>>)
    ensures |r| == |Props| && forall j :: 0 <= j < |r| ==> r[j] == [Str(Titles[j])]
  {
    seq(|Props|, j requires 0 <= j < |Props| => [Str(Titles[j])])
  }

  /** The row `index` across the aligned columns. */
  function RowAcross(padded: seq<seq<string>>, index: nat): (r: seq<string>)
    requires forall j :: 0 <= j < |padded| ==> index < |padded[j]|
    ensures |r| == |padded| && forall j :: 0 <= j < |padded| ==> r[j] == padded[j][index]
  {
    seq(|padded|, j requires 0 <= j < |padded| => padded[j][index])
  }

  /** A string of `n` dashes, `'-'.repeat(n)`. */
  function Dashes(n: nat): (r: string)
    ensures |r| == n && forall i :: 0 <= i < n ==> r[i] == '-'
  {
    seq(n, _ => '-')
  }

  /** The separator row under the titles: each cell as many dashes as its title cell is wide. */
  function SepRow(titles: seq<string>): (r: seq<string>)
    ensures |r| == |titles| && forall j :: 0 <= j < |r| ==> r[j] == Dashes(|titles[j]|)
  {
    seq(|titles|, j requires 0 <= j < |titles| => Dashes(|titles[j]|))
  }

  /** The columns before alignment: each title over its cell of every option row. */
  function Columns(rows: seq<seq<Value>>): (r: seq<seq<Value>>)
    requires forall i :: 0 <= i < |rows| ==> |rows[i]| == |Props|
    ensures |r| == |Props| && forall j :: 0 <= j < |r| ==> r[j] == [Str(Titles[j])] + ColumnOf(rows, j)
  {
    seq(|Props|, j requires 0 <= j < |Props| => [Str(Titles[j])] + ColumnOf(rows, j))
  }

  /** Each column aligned by `pad`. */
  function Padded(columns: seq<seq<Value>>, pad: seq<Value> -> seq<string>): (r: seq<seq<string>>)
    requires forall xs :: |pad(xs)| == |xs|
    ensures |r| == |columns| && forall j :: 0 <= j < |r| ==> r[j] == pad(columns[j]) && |r[j]| == |columns[j]|
  {
    seq(|columns|, j requires 0 <= j < |columns| => pad(columns[j]))
  }

  /** `parseCommand(name, config)` (src/commands/readme.js:42-81) over the keys in the
      order given: the aligned title row and a row of dashes under it are the headers, and
      every later row is an option. */
  function ReadmeFor(name: string, config: map<string, Value>, keys: seq<string>, pad: seq<Value> -> seq<string>): Result<ReadmeEntry>
    requires forall xs :: |pad(xs)| == |xs|
    requires forall i :: 0 <= i < |keys| ==> keys[i] in config
  {
    match Rows(config, keys)
    case Throw(m) => Throw(m)
    case Ok(rows) =>
      var padded := Padded(Columns(rows), pad);
      Ok(ReadmeEntry(Field(config, ""), [RowAcross(padded, 0), SepRow(RowAcross(padded, 0))], name,
                     seq(|rows|, i requires 0 <= i < |rows| => RowAcross(padded, i + 1))))
  }

  /** `parseCommand` visits the keys in ascending order. */
  function ReadmeOf(name: string, config: map<string, Value>, pad: seq<Value> -> seq<string>): Result<ReadmeEntry>
    requires forall xs :: |pad(xs)| == |xs|
  {
    ReadmeFor(name, config, SortedKeys(config.Keys), pad)
  }

  /** The entry of a command: its brief as description, the aligned titles over a row of
      dashes as headers, and one aligned row per non-empty key, in key order, holding the
      cells of the option stored under it; it throws exactly when one of those options is
      `null` or `undefined`. */
  lemma ReadmeShape(name: string, config: map<string, Value>, keys: seq<string>, pad: seq<Value> -> seq<string>)
    requires forall xs :: |pad(xs)| == |xs|
    requires forall i :: 0 <= i < |keys| ==> keys[i] in config
    ensures var ne := NonEmpty(keys);
            ReadmeFor(name, config, keys, pad).Throw? <==> exists i :: 0 <= i < |ne| && (config[ne[i]] == Undefined || config[ne[i]] == Null)
    ensures var ne := NonEmpty(keys);
            var r := ReadmeFor(name, config, keys, pad);
            r.Ok? ==>
              var rows := seq(|ne|, i requires 0 <= i < |ne| => OptionRow(config[ne[i]]).value);
              var padded := Padded(Columns(rows), pad);
              r.value.name == name && r.value.description == Field(config, "")
              && r.value.headers == [RowAcross(padded, 0), SepRow(RowAcross(padded, 0))]
              && |r.value.options| == |ne|
              && forall i :: 0 <= i < |ne| ==> r.value.options[i] == RowAcross(padded, i + 1)
  {
    RowsThrow(config, keys);
    RowsValues(config, keys);
    var ne := NonEmpty(keys);
    if Rows(config, keys).Ok? {
      var rows := Rows(config, keys).value;
      assert rows == seq(|ne|, i requires 0 <= i < |ne| => OptionRow(config[ne[i]]).value);
      var padded := Padded(Columns(rows), pad);
      var e := ReadmeFor(name, config, keys, pad).value;
      assert e.options == seq(|rows|, i requires 0 <= i < |rows| => RowAcross(padded, i + 1));
    }
  }

  /** `parseCommand(name, config)`. */
  method ParseCommand(name: string, config: map<string, Value>, pad: seq<Value> -> seq<string>) returns (r: Result<ReadmeEntry>)
    requires forall xs :: |pad(xs)| == |xs|
    ensures r == ReadmeOf(name, config, pad)
  {
    r := ParseWith(name, config, SortedKeys(config.Keys), pad);
  }

  /** Seed the columns with their titles, split the options into them, align each
      column, then regroup the cells by row. */
  method ParseWith(name: string, config: map<string, Value>, keys: seq<string>, pad: seq<Value> -> seq<string>)
    returns (r: Result<ReadmeEntry>)
    requires forall xs :: |pad(xs)| == |xs|
    requires forall i :: 0 <= i < |keys| ==> keys[i] in config
    ensures r == ReadmeFor(name, config, keys, pad)
  {
    var columns := SeedTitles();
    var split := SplitOptions(config, keys, columns);
    SplitColumns(TitleColumns(), config, keys);
    if split.Throw? {
      return Throw(split.message);
    }
    ghost var rows := Rows(config, keys).value;
    assert split.value == Columns(rows);
    var padded := PadColumns(split.value, pad);
    var headers, options := Regroup(padded, |padded[0]|);
    EntryOfRows(name, config, keys, pad, rows, headers, options);
    r := Ok(ReadmeEntry(Field(config, ""), headers, name, options));
  }

  /** The entry `parseCommand` builds from the rows of the options and the regrouped
      aligned columns. */
  lemma EntryOfRows(name: string, config: map<string, Value>, keys: seq<string>, pad: seq<Value> -> seq<string>,
                    rows: seq<seq<Value>>, headers: seq<seq<string>>, options: seq<seq<string>>)
    requires forall xs :: |pad(xs)| == |xs|
    requires forall i :: 0 <= i < |keys| ==> keys[i] in config
    requires Rows(config, keys) == Ok(rows)
    requires var padded := Padded(Columns(rows), pad);
             && headers == [RowAcross(padded, 0), SepRow(RowAcross(padded, 0))]
             && |options| == |rows|
             && forall i :: 0 <= i < |options| ==> options[i] == RowAcross(padded, i + 1)
    ensures ReadmeFor(name, config, keys, pad) == Ok(ReadmeEntry(Field(config, ""), headers, name, options))
  {
    OptionsAcross(Padded(Columns(rows), pad), options);
  }

  /** Rows regrouped one by one are the rows read across the aligned columns. */
  lemma OptionsAcross(padded: seq<seq<string>>, options: seq<seq<string>>)
    requires forall j :: 0 <= j < |padded| ==> |options| < |padded[j]|
    requires forall i :: 0 <= i < |options| ==> options[i] == RowAcross(padded, i + 1)
    ensures options == seq(|options|, i requires 0 <= i < |options| => RowAcross(padded, i + 1))
  {
  }

  /** `_names.forEach((name, index) => _columns[name] = [_titles[index]])`. */
  method SeedTitles() returns (columns: seq<seq<Value>>)
    ensures columns == TitleColumns()
  {
    columns := [];
    var j := 0;
    while j < |Props|
      invariant 0 <= j <= |Props|
      invariant columns == TitleColumns()[..j]
    {
      columns := columns + [[Str(Titles[j])]];
      j := j + 1;
    }
  }

  /** `_names.forEach(name => _columns[name] = padValues(_columns[name]))`. */
  method PadColumns(columns: seq<seq<Value>>, pad: seq<Value> -> seq<string>) returns (padded: seq<seq<string>>)
    requires forall xs :: |pad(xs)| == |xs|
    ensures padded == Padded(columns, pad)
  {
    padded := [];
    var j := 0;
    while j < |columns|
      invariant 0 <= j <= |columns|
      invariant padded == Padded(columns, pad)[..j]
    {
      padded := padded + [pad(columns[j])];
      j := j + 1;
    }
  }

  /** The `forEach` over the cells of the first column: row 0 becomes the headers, with
      a row of dashes under it, and every later row an option. */
  method Regroup(padded: seq<seq<string>>, n: nat) returns (headers: seq<seq<string>>, options: seq<seq<string>>)
    requires |padded| > 0 && forall j :: 0 <= j < |padded| ==> |padded[j]| == n
    ensures n > 0 ==> headers == [RowAcross(padded, 0), SepRow(RowAcross(padded, 0))]
    ensures n == 0 ==> headers == []
    ensures |options| == if n > 0 then n - 1 else 0
    ensures forall i :: 0 <= i < |options| ==> options[i] == RowAcross(padded, i + 1)
  {
    headers := [];
    options := [];
    var index := 0;
    while index < |padded[0]|
      invariant 0 <= index <= n
      invariant index == 0 ==> headers == [] && options == []
      invariant index > 0 ==> headers == [RowAcross(padded, 0), SepRow(RowAcross(padded, 0))]
      invariant index > 0 ==> |options| == index - 1 && forall i :: 0 <= i < index - 1 ==> options[i] == RowAcross(padded, i + 1)
    {
      var row := Across(padded, index);
      if index > 0 {
        options := options + [row];
      } else {
        var sep := SeparatorFor(row);
        headers := headers + [row] + [sep];
      }
      index := index + 1;
    }
  }

  /** `splitOptions(config, properties, output)` over the keys in turn. */
  method SplitOptions(config: map<string, Value>, keys: seq<string>, columns: seq<seq<Value>>) returns (r: Result<seq<seq<Value>>>)
    requires |columns| == |Props|
    requires forall i :: 0 <= i < |keys| ==> keys[i] in config
    ensures r == SplitAll(columns, config, keys)
  {
    var out := columns;
    var i := 0;
    while i < |keys|
      invariant 0 <= i <= |keys|
      invariant SplitAll(columns, config, keys[..i]) == Ok(out)
    {
      assert keys[..i + 1][..i] == keys[..i];
      if keys[i] != "" {
        var row := OptionRow(config[keys[i]]);
        if row.Throw? {
          SplitThrownSticks(columns, config, keys, i + 1);
          return Throw(row.message);
        }
        out := PushRow(out, row.value);
      }
      i := i + 1;
    }
    assert keys[..i] == keys;
    r := Ok(out);
  }

  lemma {:induction false} SplitThrownSticks(columns: seq<seq<Value>>, config: map<string, Value>, keys: seq<string>, j: nat)
    requires |columns| == |Props|
    requires forall i :: 0 <= i < |keys| ==> keys[i] in config
    requires j <= |keys| && SplitAll(columns, config, keys[..j]).Throw?
    ensures SplitAll(columns, config, keys) == SplitAll(columns, config, keys[..j])
  {
    if |keys| == j {
      assert keys[..j] == keys;
    } else {
      var init := keys[..|keys| - 1];
      assert init[..j] == keys[..j];
      SplitThrownSticks(columns, config, init, j);
    }
  }

  /** The `properties.forEach` that pushes one cell onto each column. */
  method PushRow(columns: seq<seq<Value>>, row: seq<Value>) returns (r: seq<seq<Value>>)
    requires |row| == |columns|
    ensures r == AddRow(columns, row)
  {
    r := [];
    var j := 0;
    while j < |columns|
      invariant 0 <= j <= |columns|
      invariant r == AddRow(columns, row)[..j]
    {
      r := r + [columns[j] + [row[j]]];
      j := j + 1;
    }
  }

  /** `_names.forEach(name => _option.push(_columns[name][index]))`. */
  method Across(padded: seq<seq<string>>, index: nat) returns (row: seq<string>)
    requires forall j :: 0 <= j < |padded| ==> index < |padded[j]|
    ensures row == RowAcross(padded, index)
  {
    row := [];
    var j := 0;
    while j < |padded|
      invariant 0 <= j <= |padded|
      invariant row == RowAcross(padded, index)[..j]
    {
      row := row + [padded[j][index]];
      j := j + 1;
    }
  }

  /** `_option.forEach(option => _sep.push('-'.repeat(option.length)))`. */
  method SeparatorFor(titles: seq<string>) returns (sep: seq<string>)
    ensures sep == SepRow(titles)
  {
    sep := [];
    var j := 0;
    while j < |titles|
      invariant 0 <= j <= |titles|
      invariant sep == SepRow(titles)[..j]
    {
      sep := sep + [Dashes(|titles[j]|)];
      j := j + 1;
    }
  }

  /** The message `buildReadme` logs for a missing directory. */
  function MissingMessage(directory: string): string
  {
    "El directorio " + directory + " no existe"
  }

  /** `buildReadme(cli, directory)` (src/commands/readme.js:13-32): without a `src/commands`
      directory nothing is built and an error is logged; otherwise every command the
      extractor finds in the files `scandir` lists gets its entry. `commandsDir` is the
      joined `src/commands` path. */
  method BuildReadme(commandsDir: string, fs: set<string>, scandir: string -> Value,
                     load: Value -> Result<SourceFile>, cc2sep: string -> string, pad: seq<Value> -> seq<string>)
    returns (r: Optional<Result<map<string, ReadmeEntry>>>, logged: Optional<string>)
    requires forall xs :: |pad(xs)| == |xs|
    ensures commandsDir !in fs ==> r == None && logged == Some(MissingMessage(commandsDir))
    ensures commandsDir in fs ==> logged == None && r.Some?
    ensures commandsDir in fs ==>
              var found := FoundIn(scandir(commandsDir), load, cc2sep);
              r == Some(EntriesOf(found, SortedKeys(found.Keys), pad))
              && (r.value.Throw? <==> exists k :: k in found && ReadmeOf(k, found[k], pad).Throw?)
    ensures commandsDir in fs && r.value.Ok? ==>
              var found := FoundIn(scandir(commandsDir), load, cc2sep);
              r.value.value.Keys == found.Keys
              && forall k :: k in found ==> ReadmeOf(k, found[k], pad) == Ok(r.value.value[k])
  {
    if commandsDir !in fs {
      return None, Some(MissingMessage(commandsDir));
    }
    logged := None;
    var found := ExtractFound(scandir(commandsDir), load, cc2sep);
    var readme := EntriesFor(found, pad);
    r := Some(readme);
  }

  /** The commands the extractor finds in a directory listing, starting from none; a
      listing that is not an array yields none. */
  function FoundIn(list: Value, load: Value -> Result<SourceFile>, cc2sep: string -> string): Table
  {
    if list.Arr? then ExtractFiles(map[], list.elems, load, cc2sep).state else map[]
  }

  /** A fresh extractor run over the listing. */
  method ExtractFound(list: Value, load: Value -> Result<SourceFile>, cc2sep: string -> string) returns (found: Table)
    ensures found == FoundIn(list, load, cc2sep)
  {
    var extractor := new Extractor(map[]);
    var _ := extractor.FromFiles(list, load, cc2sep);
    found := extractor.commands;
  }

  /** The entries of every command found, in key order: when none throws, one per
      command, each the entry `parseCommand` gives it. */
  method EntriesFor(found: Table, pad: seq<Value> -> seq<string>) returns (r: Result<map<string, ReadmeEntry>>)
    requires forall xs :: |pad(xs)| == |xs|
    ensures r == EntriesOf(found, SortedKeys(found.Keys), pad)
    ensures r.Throw? <==> exists k :: k in found && ReadmeOf(k, found[k], pad).Throw?
    ensures r.Ok? ==> r.value.Keys == found.Keys
                      && forall k :: k in found ==> ReadmeOf(k, found[k], pad) == Ok(r.value[k])
  {
    var keys := SortedKeys(found.Keys);
    r := Entries(found, keys, pad);
    EntriesComplete(found, keys, pad);
    EntriesThrow(found, keys, pad);
  }

  /** The entries of the commands `keys` of `found`, built in order; the first entry
      that throws ends the loop with its exception. */
  function EntriesOf(found: Table, keys: seq<string>, pad: seq<Value> -> seq<string>): Result<map<string, ReadmeEntry>>
    requires forall xs :: |pad(xs)| == |xs|
    requires forall i :: 0 <= i < |keys| ==> keys[i] in found
  {
    if keys == [] then Ok(map[])
    else
      var prev := EntriesOf(found, keys[..|keys| - 1], pad);
      var k := keys[|keys| - 1];
      if prev.Throw? then prev
      else match ReadmeOf(k, found[k], pad)
        case Throw(m) => Throw(m)
        case Ok(e) => Ok(prev.value[k := e])
  }

  lemma EntriesStep(found: Table, keys: seq<string>, pad: seq<Value> -> seq<string>, i: nat)
    requires forall xs :: |pad(xs)| == |xs|
    requires forall j :: 0 <= j < |keys| ==> keys[j] in found
    requires i < |keys|
    ensures var prev := EntriesOf(found, keys[..i], pad);
            EntriesOf(found, keys[..i + 1], pad) ==
              if prev.Throw? then prev
              else match ReadmeOf(keys[i], found[keys[i]], pad)
                case Throw(m) => Throw(m)
                case Ok(e) => Ok(prev.value[keys[i] := e])
  {
    assert keys[..i + 1][..i] == keys[..i];
  }

  lemma {:induction false} EntriesThrownSticks(found: Table, keys: seq<string>, pad: seq<Value> -> seq<string>, j: nat)
    requires forall xs :: |pad(xs)| == |xs|
    requires forall i :: 0 <= i < |keys| ==> keys[i] in found
    requires j <= |keys| && EntriesOf(found, keys[..j], pad).Throw?
    ensures EntriesOf(found, keys, pad) == EntriesOf(found, keys[..j], pad)
  {
    if |keys| == j {
      assert keys[..j] == keys;
    } else {
      var init := keys[..|keys| - 1];
      assert init[..j] == keys[..j];
      EntriesThrownSticks(found, init, pad, j);
    }
  }

  /** When no entry throws, every command listed has its `parseCommand` entry, under its
      own name, and no other name has one. */
  lemma {:induction false} EntriesComplete(found: Table, keys: seq<string>, pad: seq<Value> -> seq<string>)
    requires forall xs :: |pad(xs)| == |xs|
    requires forall i :: 0 <= i < |keys| ==> keys[i] in found
    ensures var r := EntriesOf(found, keys, pad);
            r.Ok? ==> (forall k :: k in r.value <==> k in keys)
                      && forall k :: k in r.value ==> ReadmeOf(k, found[k], pad) == Ok(r.value[k])
  {
    if keys != [] {
      EntriesComplete(found, keys[..|keys| - 1], pad);
    }
  }

  /** The loop throws exactly when some command listed has an entry that throws. */
  lemma {:induction false} EntriesThrow(found: Table, keys: seq<string>, pad: seq<Value> -> seq<string>)
    requires forall xs :: |pad(xs)| == |xs|
    requires forall i :: 0 <= i < |keys| ==> keys[i] in found
    ensures EntriesOf(found, keys, pad).Throw? <==> exists k :: k in keys && ReadmeOf(k, found[k], pad).Throw?
  {
    if keys != [] {
      var init := keys[..|keys| - 1];
      EntriesThrow(found, init, pad);
      assert forall k :: k in keys <==> k in init || k == keys[|keys| - 1];
    }
  }

  /** The loop over the commands found, in key order; an entry that throws ends it. */
  method Entries(found: Table, keys: seq<string>, pad: seq<Value> -> seq<string>) returns (r: Result<map<string, ReadmeEntry>>)
    requires forall xs :: |pad(xs)| == |xs|
    requires forall i :: 0 <= i < |keys| ==> keys[i] in found
    ensures r == EntriesOf(found, keys, pad)
  {
    var readme: map<string, ReadmeEntry> := map[];
    var i := 0;
    while i < |keys|
      invariant 0 <= i <= |keys|
      invariant EntriesOf(found, keys[..i], pad) == Ok(readme)
    {
      EntriesStep(found, keys, pad, i);
      var entry := ParseCommand(keys[i], found[keys[i]], pad);
      if entry.Throw? {
        EntriesThrownSticks(found, keys, pad, i + 1);
        return Throw(entry.message);
      }
      readme := readme[keys[i] := entry.value];
      i := i + 1;
    }
    assert keys[..i] == keys;
    r := Ok(readme);
  }
}
