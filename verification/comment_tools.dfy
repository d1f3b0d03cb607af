// The command extractor of src/tools/from-files.js: the top-level statements of a
// source file are scanned for block comments holding an `@command` marker; each such
// comment becomes a command (its brief under `''`, one option object per `@option`
// line), registered under the marker's name or, for an unnamed marker, under the name of
// the function or variable the comment documents. The statements are an abstract syntax
// tree: reading the file and parsing it with babylon is a parameter, and so is
// `cc2sep`. The text after the marker, the brief and the options are cut out of the
// comment by scanners that follow the regular expressions of the source.
module CommentTools {
  import opened Text
  import opened JsValue
  import opened Options
  import opened DocFiles
  import opened ParseCommandsTool

  /** A comment attached to a statement: a block comment or a line comment, and its text
      without the comment delimiters. */
  datatype Comment = Comment(isBlock: bool, text: string)

  /** A binding name: an `Identifier` node or any other pattern. */
  datatype Ident = Identifier(name: string) | NonIdentifier

  /** Where a node starts in the file. */
  datatype Position = Position(line: nat, column: nat)

  /** The right-hand side of an assignment statement. */
  datatype Right = FunctionExpr(id: Optional<Ident>, start: Position) | OtherExpr | NoRight

  /** The top-level statements the extractor looks at; `leading` is `leadingComments`,
      absent when it is not an array. */
  datatype Node =
    | ExpressionStatement(leading: Optional<seq<Comment>>, right: Right)
    | FunctionDeclaration(leading: Optional<seq<Comment>>, id: Ident)
    | VariableDeclaration(leading: Optional<seq<Comment>>, firstId: Ident)
    | OtherNode

  /** A parsed source file: its statements and its prefix, the converted base name. */
  datatype SourceFile = SourceFile(body: seq<Node>, prefix: string)

  /** `identifier(node)` (src/tools/from-files.js:119-124): the converted name of an
      `Identifier`, and `''` for any other node. */
  function IdentName(id: Ident, cc2sep: string -> string): (r: string)
    ensures id.NonIdentifier? ==> r == ""
    ensures id.Identifier? ==> r == cc2sep(id.name)
  {
    match id
    case Identifier(name) => cc2sep(name)
    case NonIdentifier => ""
  }

  // The end of the match of `/@option\s+[^\n\r]+/` at `i`. The `\s+` takes the whole
  // run of blanks when a character follows it (that character is no line break), and
  // otherwise backs off to the last character of the run that is not a line break.
  function CommentOptionEnd(s: string, i: nat): (r: Optional<nat>)
    requires i <= |s|
    ensures r.Some? ==> i + 9 <= r.value <= |s| && At(s, i, "@option") && IsSpace(s[i + 7])
  {
    if !At(s, i, "@option") || i + 7 == |s| || !IsSpace(s[i + 7]) then None
    else
      var e := RunEnd(s, i + 7, IsSpace);
      if e < |s| then Some(FindFrom(s, e, IsLineBreak))
      else match LastNonBreak(s, i + 8, e)
        case None => None
        case Some(k) => Some(k + 1)
  }

  /** The last index in `[lo, hi)` that holds no line break. */
  function LastNonBreak(s: string, lo: nat, hi: nat): (r: Optional<nat>)
    requires hi <= |s|
    ensures r.Some? ==> lo <= r.value < hi && !IsLineBreak(s[r.value])
    ensures r.Some? ==> forall k :: r.value < k < hi ==> IsLineBreak(s[k])
    ensures r.None? ==> forall k :: lo <= k < hi ==> IsLineBreak(s[k])
    decreases hi
  {
    if hi <= lo then None
    else if !IsLineBreak(s[hi - 1]) then Some(hi - 1)
    else LastNonBreak(s, lo, hi - 1)
  }

  /** All matches of `/@option\s+[^\n\r]+/g` from `from` on. */
  function CommentOptions(s: string, from: nat): (r: seq<string>)
    requires from <= |s|
    ensures forall j :: 0 <= j < |r| ==> |r[j]| >= 9 && r[j][..7] == "@option" && IsSpace(r[j][7])
    ensures r == [] ==> forall i :: from <= i <= |s| ==> CommentOptionEnd(s, i).None?
    decreases |s| - from
  {
    var i := Find(s, "@option", from);
    if i == |s| then []
    else match CommentOptionEnd(s, i)
      case Some(e) =>
        OptionLineShape(s, i, e);
        [s[i..e]] + CommentOptions(s, e)
      case None => CommentOptions(s, i + 1)
  }

  lemma OptionLineShape(s: string, i: nat, e: nat)
    requires i <= |s| && CommentOptionEnd(s, i) == Some(e)
    ensures e <= |s| && |s[i..e]| >= 9 && s[i..e][..7] == "@option" && IsSpace(s[i..e][7])
  {
    assert s[i..e][..7] == s[i..i + 7];
  }

  /** The text of `/@command([^\n\r]*)/`'s group: the rest of the marker's line. */
  function CommandText(s: string, i: nat): string
    requires At(s, i, "@command")
  {
    s[i + 8..FindFrom(s, i + 8, IsLineBreak)]
  }

  /** The option object `new Option(name + '|' + desc)` builds for one `@option` line. */
  function OptionObject(line: string): Result<Value>
  {
    match FromString(OptionName(line) + "|" + OptionDescription(line))
    case Throw(m) => Throw(m)
    case Ok(d) => Ok(d.AsValue())
  }

  /** The `forEach` over the sorted `@option` lines (src/tools/from-files.js:212-218): each
      stores the object `make` builds for it under its name; a line `make` rejects throws.
      The builder is a parameter so that the fold can be reasoned about apart from it. */
  function StoreAll(config: map<string, Value>, lines: seq<string>, make: string -> Result<Value>): Result<map<string, Value>>
  {
    if lines == [] then Ok(config)
    else
      var prev := StoreAll(config, lines[..|lines| - 1], make);
      var line := lines[|lines| - 1];
      if prev.Throw? then prev
      else match make(line)
        case Throw(m) => Throw(m)
        case Ok(o) => Ok(prev.value[OptionName(line) := o])
  }

  /** The fold throws exactly when some line is rejected; otherwise every line is stored
      under its name, nothing else is added, and entries no line names keep their value. */
  lemma {:induction false} StoreAllSpec(config: map<string, Value>, lines: seq<string>, make: string -> Result<Value>)
    ensures StoreAll(config, lines, make).Throw? <==> exists j :: 0 <= j < |lines| && make(lines[j]).Throw?
    ensures StoreAll(config, lines, make).Ok? ==> StoreAll(config, lines, make).value.Keys == config.Keys + Names(lines)
    ensures StoreAll(config, lines, make).Ok? ==>
              forall k :: k in config && k !in Names(lines) ==> StoreAll(config, lines, make).value[k] == config[k]
  {
    if lines != [] {
      var init := lines[..|lines| - 1];
      StoreAllSpec(config, init, make);
      assert forall j :: 0 <= j < |init| ==> init[j] == lines[j];
    }
  }

  /** The entry of a name holds the object of the last line with that name. */
  lemma {:induction false} StoreAllLastWins(config: map<string, Value>, lines: seq<string>, make: string -> Result<Value>, j: nat)
    requires j < |lines| && StoreAll(config, lines, make).Ok?
    requires forall i :: j < i < |lines| ==> OptionName(lines[i]) != OptionName(lines[j])
    ensures make(lines[j]).Ok? && OptionName(lines[j]) in StoreAll(config, lines, make).value
    ensures StoreAll(config, lines, make).value[OptionName(lines[j])] == make(lines[j]).value
  {
    var init := lines[..|lines| - 1];
    if j < |lines| - 1 {
      assert forall i :: j < i < |init| ==> init[i] == lines[i];
      StoreAllLastWins(config, init, make, j);
    }
  }

  /** The command a marked comment describes: its brief under `''`, then the objects
      `make` builds for its `@option` lines in sorted order. Without a brief the comment
      throws. */
  function CommandConfig(brief: Result<string>, lines: seq<string>, make: string -> Result<Value>): Result<map<string, Value>>
  {
    match brief
    case Throw(m) => Throw(m)
    case Ok(b) => StoreAll(map["" := Str(b)], Sort(lines), make)
  }

  /** The command throws exactly when there is no brief or one of its options is rejected;
      otherwise it holds the brief under `''` (unless an option is itself named `''`) and an
      option object under the name of every `@option` line, and nothing else. */
  lemma CommandConfigSpec(brief: Result<string>, lines: seq<string>, make: string -> Result<Value>)
    ensures CommandConfig(brief, lines, make).Throw? <==>
              brief.Throw? || exists j :: 0 <= j < |lines| && make(lines[j]).Throw?
    ensures CommandConfig(brief, lines, make).Ok? ==> CommandConfig(brief, lines, make).value.Keys == {""} + Names(lines)
    ensures CommandConfig(brief, lines, make).Ok? && "" !in Names(lines) ==>
              CommandConfig(brief, lines, make).value[""] == Str(brief.value)
  {
    if brief.Ok? {
      var sorted := Sort(lines);
      SortKeepsNames(lines);
      SortedRejects(lines, sorted, make);
      StoreAllSpec(map["" := Str(brief.value)], sorted, make);
    }
  }

  /** Sorting neither adds nor removes a rejected line. */
  lemma SortedRejects(lines: seq<string>, sorted: seq<string>, make: string -> Result<Value>)
    requires multiset(sorted) == multiset(lines)
    ensures (exists j :: 0 <= j < |lines| && make(lines[j]).Throw?) <==> (exists i :: 0 <= i < |sorted| && make(sorted[i]).Throw?)
  {
    forall j | 0 <= j < |lines| && make(lines[j]).Throw?
      ensures exists i :: 0 <= i < |sorted| && make(sorted[i]).Throw?
    {
      assert lines[j] in multiset(sorted);
      var i :| 0 <= i < |sorted| && sorted[i] == lines[j];
    }
    forall i | 0 <= i < |sorted| && make(sorted[i]).Throw?
      ensures exists j :: 0 <= j < |lines| && make(lines[j]).Throw?
    {
      assert sorted[i] in multiset(lines);
      var j :| 0 <= j < |lines| && lines[j] == sorted[i];
    }
  }

  /** `parseComment(comment)` (src/tools/from-files.js:195-223): no marker gives an empty
      result; otherwise one command, filed under the converted text after the marker. */
  function CommentTable(comment: string, cc2sep: string -> string): (r: Result<Table>)
    ensures Find(comment, "@command", 0) == |comment| ==> r == Ok(map[])
    ensures Find(comment, "@command", 0) < |comment| ==>
              var key := cc2sep(Trim(CommandText(comment, Find(comment, "@command", 0))));
              var config := CommandConfig(Brief(comment), CommentOptions(comment, 0), OptionObject);
              (r.Throw? <==> config.Throw?) && (r.Ok? ==> r.value == map[key := config.value])
  {
    var i := Find(comment, "@command", 0);
    if i == |comment| then Ok(map[])
    else
      var key := cc2sep(Trim(CommandText(comment, i)));
      match CommandConfig(Brief(comment), CommentOptions(comment, 0), OptionObject)
      case Throw(m) => Throw(m)
      case Ok(config) => Ok(map[key := config])
  }

  /** `extractComment(node)` (src/tools/from-files.js:73-90): the block comments that
      mention `@command`, joined by newlines and trimmed; nothing when the comments are
      not an array or the text is empty, else the parsed comment. */
  function ExtractComment(leading: Optional<seq<Comment>>, cc2sep: string -> string): (r: Optional<Result<Table>>)
    ensures leading.None? ==> r.None?
    ensures r.Some? ==> r.value == CommentTable(MarkedText(leading.value), cc2sep)
    ensures leading.Some? ==> (r.None? <==> MarkedText(leading.value) == "")
  {
    match leading
    case None => None
    case Some(comments) =>
      var info := MarkedText(comments);
      if info == "" then None else Some(CommentTable(info, cc2sep))
  }

  /** The texts of the block comments that mention `@command`, in order. */
  function Marked(comments: seq<Comment>): (r: seq<string>)
    ensures |r| <= |comments|
    ensures forall j :: 0 <= j < |r| ==> Contains(r[j], "@command")
  {
    if comments == [] then []
    else
      var rest := Marked(comments[1..]);
      var c := comments[0];
      if c.isBlock && Contains(c.text, "@command") then [c.text] + rest else rest
  }

  function MarkedText(comments: seq<Comment>): string
  {
    Trim(Join(Marked(comments), "\n"))
  }

  /** `commands[name] = comment['']` when the marker is unnamed, else
      `Object.assign(commands, comment)`. */
  function Attach(commands: Table, comment: Table, name: string): (r: Table)
    ensures "" in comment ==> r == commands[name := comment[""]]
    ensures "" !in comment ==> r.Keys == commands.Keys + comment.Keys
    ensures "" !in comment ==> forall k :: k in comment ==> r[k] == comment[k]
    ensures "" !in comment ==> forall k :: k in commands && k !in comment ==> r[k] == commands[k]
  {
    if "" in comment then commands[name := comment[""]] else commands + comment
  }

  // The three statement handlers (src/tools/from-files.js:39-66, 98-112 and 244-258): a
  // documented declaration registers an unnamed command under its converted name and
  // merges a named one as it is; an assignment does the same with the name of the
  // function it assigns, throws when that function is anonymous, and ignores an unnamed
  // command on anything but a function. Other statements are skipped.
  function HandleNode(commands: Table, node: Node, cc2sep: string -> string): (r: Result<Table>)
    ensures node.OtherNode? ==> r == Ok(commands)
    ensures !node.OtherNode? && ExtractComment(node.leading, cc2sep).None? ==> r == Ok(commands)
    ensures r.Ok? ==> commands.Keys <= r.value.Keys
    ensures r.Throw? ==>
              (!node.OtherNode? && ExtractComment(node.leading, cc2sep) == Some(Throw(r.message)))
              || (node.ExpressionStatement? && node.right.FunctionExpr? && node.right.id.None?
                  && r.message == AnonymousError(node.right.start))
  {
    match node
    case OtherNode => Ok(commands)
    case _ => HandleMarked(commands, node, ExtractComment(node.leading, cc2sep), cc2sep)
  }

  /** A statement with comments, given what its comments were extracted to. */
  function HandleMarked(commands: Table, node: Node, extracted: Optional<Result<Table>>, cc2sep: string -> string): (r: Result<Table>)
    requires !node.OtherNode?
    ensures extracted.None? ==> r == Ok(commands)
    ensures r.Ok? ==> commands.Keys <= r.value.Keys
    ensures r.Throw? ==>
              extracted == Some(Throw(r.message))
              || (node.ExpressionStatement? && node.right.FunctionExpr? && node.right.id.None?
                  && r.message == AnonymousError(node.right.start))
  {
    match extracted
    case None => Ok(commands)
    case Some(Throw(m)) => Throw(m)
    case Some(Ok(c)) =>
      match node
      case FunctionDeclaration(_, id) => Ok(Attach(commands, c, IdentName(id, cc2sep)))
      case VariableDeclaration(_, firstId) => Ok(Attach(commands, c, IdentName(firstId, cc2sep)))
      case ExpressionStatement(_, right) =>
        if "" !in c then Ok(commands + c)
        else match right
          case FunctionExpr(Some(id), _) => Ok(commands[IdentName(id, cc2sep) := c[""]])
          case FunctionExpr(None, start) => Throw(AnonymousError(start))
          case _ => Ok(commands)
  }

  /** The error an unnamed command on an anonymous function raises. */
  function AnonymousError(start: Position): string
  {
    "ERROR(" + IntToString(start.line) + "," + IntToString(start.column) + "): Se debe asignar un nombre a la función."
  }

  /** An unnamed command on an anonymous function is an error that says where the
      function starts; on a named function it is registered under the function's name. */
  lemma UnnamedCommandNeedsAName(leading: seq<Comment>, id: Optional<Ident>, start: Position, commands: Table, cc2sep: string -> string)
    requires CommentTable(MarkedText(leading), cc2sep).Ok? && MarkedText(leading) != ""
    requires "" in CommentTable(MarkedText(leading), cc2sep).value
    ensures var r := HandleNode(commands, ExpressionStatement(Some(leading), FunctionExpr(id, start)), cc2sep);
            id.None? ==> r == Throw(AnonymousError(start))
    ensures var r := HandleNode(commands, ExpressionStatement(Some(leading), FunctionExpr(id, start)), cc2sep);
            id.Some? ==> r == Ok(commands[IdentName(id.value, cc2sep) := CommentTable(MarkedText(leading), cc2sep).value[""]])
  {
    var node := ExpressionStatement(Some(leading), FunctionExpr(id, start));
    var extracted := ExtractComment(Some(leading), cc2sep);
    assert extracted == Some(CommentTable(MarkedText(leading), cc2sep));
    assert HandleNode(commands, node, cc2sep) == HandleMarked(commands, node, extracted, cc2sep);
  }

  /** The statements of a file handled in order, up to the first exception. */
  function HandleNodes(commands: Table, nodes: seq<Node>, cc2sep: string -> string): Result<Table>
  {
    if nodes == [] then Ok(commands)
    else
      var prev := HandleNodes(commands, nodes[..|nodes| - 1], cc2sep);
      if prev.Throw? then prev else HandleNode(prev.value, nodes[|nodes| - 1], cc2sep)
  }

  lemma {:induction false} HandleThrownSticks(commands: Table, nodes: seq<Node>, cc2sep: string -> string, j: nat)
    requires j <= |nodes|
    requires HandleNodes(commands, nodes[..j], cc2sep).Throw?
    ensures HandleNodes(commands, nodes, cc2sep) == HandleNodes(commands, nodes[..j], cc2sep)
  {
    if |nodes| == j {
      assert nodes[..j] == nodes;
    } else {
      var init := nodes[..|nodes| - 1];
      assert init[..j] == nodes[..j];
      HandleThrownSticks(commands, init, cc2sep, j);
    }
  }

  /** The merge step of `parse` (src/tools/from-files.js:175-186) over the local names
      `keys`: the command named like the file goes under the bare prefix, every other
      non-empty name `n` under `prefix:n`, and the empty name is dropped. */
  function MergeKeys(commands: Table, local: Table, prefix: string, keys: seq<string>): Table
    requires forall i :: 0 <= i < |keys| ==> keys[i] in local
  {
    if keys == [] then commands
    else
      var prev := MergeKeys(commands, local, prefix, keys[..|keys| - 1]);
      var k := keys[|keys| - 1];
      if k != "" then prev[prefix + ":" + k := local[k]] else prev
  }

  function Merge(commands: Table, local: Table, prefix: string): Table
  {
    var start := if prefix in local then commands[prefix := local[prefix]] else commands;
    var rest := local - {prefix};
    MergeKeys(start, rest, prefix, SortedKeys(rest.Keys))
  }

  /** Where a local name is filed. */
  function Qualified(prefix: string, k: string): string
  {
    prefix + ":" + k
  }

  lemma QualifiedInjective(prefix: string, a: string, b: string)
    requires a != b
    ensures Qualified(prefix, a) != Qualified(prefix, b)
    ensures Qualified(prefix, a) != prefix
  {
    assert Qualified(prefix, a)[|prefix| + 1..] == a;
    assert Qualified(prefix, b)[|prefix| + 1..] == b;
  }

  /** Over distinct names, every non-empty one is filed under `prefix:name` and the other
      commands keep their entries. */
  lemma {:induction false} MergeKeysSpec(commands: Table, local: Table, prefix: string, keys: seq<string>)
    requires forall i :: 0 <= i < |keys| ==> keys[i] in local
    requires forall i, j :: 0 <= i < j < |keys| ==> keys[i] != keys[j]
    ensures var r := MergeKeys(commands, local, prefix, keys);
            forall i :: 0 <= i < |keys| && keys[i] != "" ==> Qualified(prefix, keys[i]) in r && r[Qualified(prefix, keys[i])] == local[keys[i]]
    ensures var r := MergeKeys(commands, local, prefix, keys);
            forall x :: x in commands && (forall i :: 0 <= i < |keys| && keys[i] != "" ==> x != Qualified(prefix, keys[i])) ==> x in r && r[x] == commands[x]
    ensures var r := MergeKeys(commands, local, prefix, keys);
            forall x :: x in r ==> x in commands || exists i :: 0 <= i < |keys| && keys[i] != "" && x == Qualified(prefix, keys[i])
  {
    if keys != [] {
      var init := keys[..|keys| - 1];
      var k := keys[|keys| - 1];
      MergeKeysSpec(commands, local, prefix, init);
      assert forall i :: 0 <= i < |init| ==> init[i] == keys[i];
      var prev := MergeKeys(commands, local, prefix, init);
      var r := MergeKeys(commands, local, prefix, keys);
      assert r == if k != "" then prev[Qualified(prefix, k) := local[k]] else prev;
      forall i | 0 <= i < |init| && init[i] != ""
        ensures Qualified(prefix, init[i]) in r && r[Qualified(prefix, init[i])] == local[init[i]]
      {
        QualifiedInjective(prefix, init[i], k);
      }
      forall x | x in commands && (forall i :: 0 <= i < |keys| && keys[i] != "" ==> x != Qualified(prefix, keys[i]))
        ensures x in r && r[x] == commands[x]
      {
        assert x in prev && prev[x] == commands[x];
      }
      forall x | x in r
        ensures x in commands || exists i :: 0 <= i < |keys| && keys[i] != "" && x == Qualified(prefix, keys[i])
      {
        if x !in prev {
          assert keys[|keys| - 1] != "" && x == Qualified(prefix, keys[|keys| - 1]);
        }
      }
    }
  }

  /** The merge files the file's own command under the prefix, every other non-empty
      local name `n` under `prefix:n`, drops the empty name, and changes nothing else. */
  lemma MergeSpec(commands: Table, local: Table, prefix: string)
    ensures var r := Merge(commands, local, prefix);
            prefix in local ==> prefix in r && r[prefix] == local[prefix]
    ensures var r := Merge(commands, local, prefix);
            forall k :: k in local && k != "" && k != prefix ==> Qualified(prefix, k) in r && r[Qualified(prefix, k)] == local[k]
    ensures var r := Merge(commands, local, prefix);
            forall x :: x in r ==> x in commands || x == prefix || exists k :: k in local && k != "" && k != prefix && x == Qualified(prefix, k)
    ensures var r := Merge(commands, local, prefix);
            forall x :: x in commands && !(prefix in local && x == prefix)
                        && (forall k :: k in local && k != "" && k != prefix ==> x != Qualified(prefix, k))
                        ==> x in r && r[x] == commands[x]
  {
    var start := if prefix in local then commands[prefix := local[prefix]] else commands;
    var rest := local - {prefix};
    var keys := SortedKeys(rest.Keys);
    MergeSpecOver(start, rest, prefix, keys);
    var r := MergeKeys(start, rest, prefix, keys);
    MergeOnly(commands, local, prefix, start, rest, r);
    MergeKeeps(commands, local, prefix, start, rest, r);
  }

  // The two halves of the merge, with `start` the table after the file's own command
  // and `rest` the other local names.
  lemma MergeOnly(commands: Table, local: Table, prefix: string, start: Table, rest: Table, r: Table)
    requires start == if prefix in local then commands[prefix := local[prefix]] else commands
    requires rest == local - {prefix}
    requires forall x :: x in r ==> x in start || exists k :: k in rest && k != "" && x == Qualified(prefix, k)
    ensures forall x :: x in r ==> x in commands || x == prefix || exists k :: k in local && k != "" && k != prefix && x == Qualified(prefix, k)
  {
    forall x | x in r ensures x in commands || x == prefix || exists k :: k in local && k != "" && k != prefix && x == Qualified(prefix, k) {
      if x !in start {
        var k :| k in rest && k != "" && x == Qualified(prefix, k);
        assert k in local && k != prefix;
      }
    }
  }

  lemma MergeKeeps(commands: Table, local: Table, prefix: string, start: Table, rest: Table, r: Table)
    requires start == if prefix in local then commands[prefix := local[prefix]] else commands
    requires rest == local - {prefix}
    requires forall x :: x in start && (forall k :: k in rest && k != "" ==> x != Qualified(prefix, k)) ==> x in r && r[x] == start[x]
    ensures prefix in local ==> prefix in r && r[prefix] == local[prefix]
    ensures forall x :: x in commands && !(prefix in local && x == prefix)
                        && (forall k :: k in local && k != "" && k != prefix ==> x != Qualified(prefix, k))
                        ==> x in r && r[x] == commands[x]
  {
    if prefix in local {
      forall k | k in rest && k != "" ensures prefix != Qualified(prefix, k) {
        assert |Qualified(prefix, k)| > |prefix|;
      }
    }
    forall x | x in commands && !(prefix in local && x == prefix)
               && (forall k :: k in local && k != "" && k != prefix ==> x != Qualified(prefix, k))
      ensures x in r && r[x] == commands[x]
    {
      assert x in start && start[x] == commands[x];
      assert forall k :: k in rest ==> k in local && k != prefix;
    }
  }

  lemma MergeSpecOver(start: Table, rest: Table, prefix: string, keys: seq<string>)
    requires forall k :: k in keys <==> k in rest
    requires forall i, j :: 0 <= i < j < |keys| ==> keys[i] != keys[j]
    ensures var r := MergeKeys(start, rest, prefix, keys);
            forall k :: k in rest && k != "" ==> Qualified(prefix, k) in r && r[Qualified(prefix, k)] == rest[k]
    ensures var r := MergeKeys(start, rest, prefix, keys);
            forall x :: x in start && (forall k :: k in rest && k != "" ==> x != Qualified(prefix, k)) ==> x in r && r[x] == start[x]
    ensures var r := MergeKeys(start, rest, prefix, keys);
            forall x :: x in r ==> x in start || exists k :: k in rest && k != "" && x == Qualified(prefix, k)
  {
    MergeKeysSpec(start, rest, prefix, keys);
    var r := MergeKeys(start, rest, prefix, keys);
    forall k | k in rest && k != "" ensures Qualified(prefix, k) in r && r[Qualified(prefix, k)] == rest[k] {
      var i :| 0 <= i < |keys| && keys[i] == k;
    }
    forall x | x in start && (forall k :: k in rest && k != "" ==> x != Qualified(prefix, k))
      ensures x in r && r[x] == start[x]
    {
    }
  }

  /** The output object the extractor fills. */
  class Extractor {
    var commands: Table

    constructor (commands: Table)
      ensures this.commands == commands
    {
      this.commands := commands;
    }

    /** `parse(cli, commands, file)` (src/tools/from-files.js:141-188) on a parsed file:
        its statements are handled into a local table, which is then merged. An exception
        leaves the output as it was. */
    method Parse(file: SourceFile, cc2sep: string -> string) returns (c: Completion)
      modifies this
      ensures var local := HandleNodes(map[], file.body, cc2sep);
              if local.Throw? then c == Thrown(local.message) && commands == old(commands)
              else c == Normal && commands == Merge(old(commands), local.value, file.prefix)
    {
      var local := HandleEach(file.body, cc2sep);
      if local.Throw? {
        return Thrown(local.message);
      }
      MergeLocal(local.value, file.prefix);
      c := Normal;
    }

    /** The merge after the statements are handled (src/tools/from-files.js:175-186). */
    method MergeLocal(local: Table, prefix: string)
      modifies this
      ensures commands == Merge(old(commands), local, prefix)
    {
      var rest := local;
      if prefix in rest {
        commands := commands[prefix := rest[prefix]];
        rest := rest - {prefix};
      }
      assert rest == local - {prefix};
      MergeInto(rest, prefix, SortedKeys(rest.Keys));
    }

    /** The loop over the sorted local names. */
    method MergeInto(rest: Table, prefix: string, keys: seq<string>)
      requires forall i :: 0 <= i < |keys| ==> keys[i] in rest
      modifies this
      ensures commands == MergeKeys(old(commands), rest, prefix, keys)
    {
      var i := 0;
      while i < |keys|
        invariant 0 <= i <= |keys|
        invariant commands == MergeKeys(old(commands), rest, prefix, keys[..i])
      {
        assert keys[..i + 1][..i] == keys[..i];
        if keys[i] != "" {
          commands := commands[prefix + ":" + keys[i] := rest[keys[i]]];
        }
        i := i + 1;
      }
      assert keys[..i] == keys;
    }

    /** `fromFiles(cli, commands, files)` (src/tools/from-files.js:267-280): the files of
        an array are read, parsed and merged in order; the first exception is caught and
        its message printed, and the files after it are not processed. Anything but an
        array changes nothing. */
    method FromFiles(files: Value, load: Value -> Result<SourceFile>, cc2sep: string -> string) returns (printed: Optional<string>)
      modifies this
      ensures !files.Arr? ==> printed == None && commands == old(commands)
      ensures files.Arr? ==>
                var o := ExtractFiles(old(commands), files.elems, load, cc2sep);
                commands == o.state && (if o.completion.Thrown? then printed == Some(o.completion.message) else printed == None)
    {
      printed := None;
      if !files.Arr? {
        return;
      }
      var c := ExtractEach(files.elems, load, cc2sep);
      if c.Thrown? {
        printed := Some(c.message);
      }
    }

    /** The files of the array read, parsed and merged in order, up to the first
        exception. */
    method ExtractEach(elems: seq<Value>, load: Value -> Result<SourceFile>, cc2sep: string -> string) returns (c: Completion)
      modifies this
      ensures Outcome(commands, c) == ExtractFiles(old(commands), elems, load, cc2sep)
    {
      var i := 0;
      while i < |elems|
        invariant 0 <= i <= |elems|
        invariant Outcome(commands, Normal) == ExtractFiles(old(commands), elems[..i], load, cc2sep)
      {
        ExtractFilesStep(old(commands), elems, load, cc2sep, i);
        c := ExtractOne(elems[i], load, cc2sep);
        if c.Thrown? {
          ExtractThrownSticks(old(commands), elems, load, cc2sep, i + 1);
          return;
        }
        i := i + 1;
      }
      assert elems[..i] == elems;
      c := Normal;
    }

    /** One file: read, parsed and merged; a failure to read or parse leaves the output
        as it was. */
    method ExtractOne(file: Value, load: Value -> Result<SourceFile>, cc2sep: string -> string) returns (c: Completion)
      modifies this
      ensures Outcome(commands, c) == ExtractFile(old(commands), file, load, cc2sep)
    {
      var source := load(file);
      if source.Throw? {
        return Thrown(source.message);
      }
      c := Parse(source.value, cc2sep);
    }
  }

  lemma HandleNodesStep(commands: Table, nodes: seq<Node>, cc2sep: string -> string, i: nat)
    requires i < |nodes|
    ensures var prev := HandleNodes(commands, nodes[..i], cc2sep);
            HandleNodes(commands, nodes[..i + 1], cc2sep) ==
              if prev.Throw? then prev else HandleNode(prev.value, nodes[i], cc2sep)
  {
    assert nodes[..i + 1][..i] == nodes[..i];
  }

  /** The `forEach` over the statements. */
  method HandleEach(nodes: seq<Node>, cc2sep: string -> string) returns (r: Result<Table>)
    ensures r == HandleNodes(map[], nodes, cc2sep)
  {
    var local: Table := map[];
    var i := 0;
    while i < |nodes|
      invariant 0 <= i <= |nodes|
      invariant HandleNodes(map[], nodes[..i], cc2sep) == Ok(local)
    {
      HandleNodesStep(map[], nodes, cc2sep, i);
      var next := HandleNode(local, nodes[i], cc2sep);
      if next.Throw? {
        HandleThrownSticks(map[], nodes, cc2sep, i + 1);
        return next;
      }
      local := next.value;
      i := i + 1;
    }
    assert nodes[..i] == nodes;
    r := Ok(local);
  }

  /** One file's effect on the output. */
  function ExtractFile(commands: Table, file: Value, load: Value -> Result<SourceFile>, cc2sep: string -> string): Outcome<Table>
  {
    match load(file)
    case Throw(m) => Outcome(commands, Thrown(m))
    case Ok(source) =>
      match HandleNodes(map[], source.body, cc2sep)
      case Throw(m) => Outcome(commands, Thrown(m))
      case Ok(local) => Outcome(Merge(commands, local, source.prefix), Normal)
  }

  /** The files processed in order, up to the first exception. */
  function ExtractFiles(commands: Table, files: seq<Value>, load: Value -> Result<SourceFile>, cc2sep: string -> string): Outcome<Table>
  {
    if files == [] then Outcome(commands, Normal)
    else
      var prev := ExtractFiles(commands, files[..|files| - 1], load, cc2sep);
      if prev.completion.Thrown? then prev else ExtractFile(prev.state, files[|files| - 1], load, cc2sep)
  }

  lemma ExtractFilesStep(commands: Table, files: seq<Value>, load: Value -> Result<SourceFile>, cc2sep: string -> string, i: nat)
    requires i < |files|
    ensures var prev := ExtractFiles(commands, files[..i], load, cc2sep);
            ExtractFiles(commands, files[..i + 1], load, cc2sep) ==
              if prev.completion.Thrown? then prev else ExtractFile(prev.state, files[i], load, cc2sep)
  {
    assert files[..i + 1][..i] == files[..i];
  }

  lemma {:induction false} ExtractThrownSticks(commands: Table, files: seq<Value>, load: Value -> Result<SourceFile>, cc2sep: string -> string, j: nat)
    requires j <= |files|
    requires ExtractFiles(commands, files[..j], load, cc2sep).completion.Thrown?
    ensures ExtractFiles(commands, files, load, cc2sep) == ExtractFiles(commands, files[..j], load, cc2sep)
  {
    if |files| == j {
      assert files[..j] == files;
    } else {
      var init := files[..|files| - 1];
      assert init[..j] == files[..j];
      ExtractThrownSticks(commands, init, load, cc2sep, j);
    }
  }

  /** The first file that fails stops the run: the output keeps what the files before it
      produced, and the files after it have no effect. */
  lemma FirstErrorStops(commands: Table, files: seq<Value>, load: Value -> Result<SourceFile>, cc2sep: string -> string, j: nat)
    requires j < |files|
    requires ExtractFiles(commands, files[..j], load, cc2sep).completion == Normal
    requires load(files[j]).Throw?
    ensures ExtractFiles(commands, files, load, cc2sep)
            == Outcome(ExtractFiles(commands, files[..j], load, cc2sep).state, Thrown(load(files[j]).message))
  {
    assert files[..j + 1][..j] == files[..j];
    ExtractThrownSticks(commands, files, load, cc2sep, j + 1);
  }
}
