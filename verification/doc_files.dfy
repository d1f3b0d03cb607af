// The documentation scanner of src/utils/from-files.js: `parseFile` reads the first
// `/** ... */` block of a command file and, when it documents options, stores the brief
// under `?` and each `@option` line under its option name. The file system is a map
// from path to contents and `path.basename(file, '.js')` is a parameter. The three
// regular expressions it uses are written out as scanners.
module DocFiles {
  import opened Text
  import opened JsValue

  /** What a file documents: option name (and `?`) to description text. */
  type Config = map<string, string>

  // The first match of `/\/\*\*.*?\*\//s`: from the first `/**` to the first `*/` that
  // follows it. Without a closing `*/` after the first `/**` there is none after any
  // later one either, so there is no match.
  function FirstDoc(text: string): (r: Optional<string>)
    ensures r.Some? ==> |r.value| >= 5 && r.value[..3] == "/**" && r.value[|r.value| - 2..] == "*/"
    ensures r.None? <==> Find(text, "/**", 0) == |text| || Find(text, "*/", Find(text, "/**", 0) + 3) == |text|
  {
    var p := Find(text, "/**", 0);
    if p == |text| then None
    else
      var q := Find(text, "*/", p + 3);
      if q == |text| then None
      else Some(text[p..q + 2])
  }

  /** Whether `Find` on a text and on any extension of it agree, when it finds `pat` in
      the text itself. */
  lemma {:induction false} FindInPrefix(a: string, b: string, pat: string, from: nat)
    requires from <= |a| && pat != []
    requires Find(a, pat, from) < |a|
    ensures Find(a + b, pat, from) == Find(a, pat, from)
    decreases |a| - from
  {
    var r := Find(a, pat, from);
    assert (a + b)[..|a|] == a;
    if At(a, from, pat) {
      assert (a + b)[from..from + |pat|] == a[from..from + |pat|];
    } else {
      assert from < r && r + |pat| <= |a|;
      assert (a + b)[from..from + |pat|] == a[from..from + |pat|];
      FindInPrefix(a, b, pat, from + 1);
    }
  }

  /** Only the first block counts: whatever follows a text that holds a complete block
      does not change which block is read. */
  lemma FirstBlockOnly(a: string, b: string)
    requires FirstDoc(a).Some?
    ensures FirstDoc(a + b) == FirstDoc(a)
  {
    var p := Find(a, "/**", 0);
    var q := Find(a, "*/", p + 3);
    FirstDocSome(a, p, q);
    FindInPrefix(a, b, "/**", 0);
    FindInPrefix(a, b, "*/", p + 3);
    FirstDocAt(a + b, p, q);
    FirstDocAt(a, p, q);
    assert (a + b)[p..q + 2] == a[p..q + 2];
  }

  lemma FirstDocSome(text: string, p: nat, q: nat)
    requires FirstDoc(text).Some?
    requires p == Find(text, "/**", 0)
    requires p + 3 <= |text| && q == Find(text, "*/", p + 3)
    ensures p < |text| && q < |text|
  {
  }

  lemma FirstDocAt(text: string, p: nat, q: nat)
    requires p == Find(text, "/**", 0) && p < |text|
    requires p + 3 <= |text| && q == Find(text, "*/", p + 3) && q < |text|
    ensures FirstDoc(text) == Some(text[p..q + 2])
  {
  }

  /** An `@option` line starts at `i`: the marker, one `\s` character and at least one
      character that is not a line break. */
  predicate OptionAt(doc: string, i: nat)
  {
    At(doc, i, "@option") && i + 8 < |doc| && IsSpace(doc[i + 7]) && !IsLineBreak(doc[i + 8])
  }

  /** The text of one `@option` match. */
  predicate OptionLine(m: string)
  {
    |m| >= 9 && m[..7] == "@option" && IsSpace(m[7]) && forall k :: 8 <= k < |m| ==> !IsLineBreak(m[k])
  }

  /** The matches of `/@option\s[^\n\r]+/g` from `from` on: each runs to the end of its
      line, and the scan resumes after it. */
  function OptionMatches(doc: string, from: nat): (r: seq<string>)
    requires from <= |doc|
    ensures r == [] <==> forall i :: from <= i < |doc| ==> !OptionAt(doc, i)
    ensures forall j :: 0 <= j < |r| ==> OptionLine(r[j])
    decreases |doc| - from
  {
    var i := Find(doc, "@option", from);
    if OptionAt(doc, i) then
      var e := FindFrom(doc, i + 8, IsLineBreak);
      assert doc[i..e][..7] == doc[i..i + 7];
      [doc[i..e]] + OptionMatches(doc, e)
    else if i < |doc| then OptionMatches(doc, i + 1)
    else []
  }

  // The groups `(?:\*\s+)+` match from `j` on.
  function StarGroups(s: string, j: nat): (k: nat)
    requires j <= |s|
    ensures j <= k <= |s|
    decreases |s| - j
  {
    if j + 1 < |s| && s[j] == '*' && IsSpace(s[j + 1]) then StarGroups(s, RunEnd(s, j + 1, IsSpace)) else j
  }

  // The end of the match of `/\s+(?:\*\s+)+/` that starts at `i`, if there is one. Both
  // repetitions are greedy, and backing off a `\s+` never lets a `*` follow.
  function SepEnd(s: string, i: nat): (r: Optional<nat>)
    requires i <= |s|
    ensures r.Some? ==> i < r.value <= |s|
  {
    if i < |s| && IsSpace(s[i]) then
      var j := RunEnd(s, i, IsSpace);
      var k := StarGroups(s, j);
      if k == j then None else Some(k)
    else None
  }

  /** The leftmost separator match at or after `from`: its start and end. */
  function NextSep(s: string, from: nat): (r: Optional<(nat, nat)>)
    requires from <= |s|
    ensures r.Some? ==> from <= r.value.0 < r.value.1 <= |s| && SepEnd(s, r.value.0) == Some(r.value.1)
    ensures r.Some? ==> forall i :: from <= i < r.value.0 ==> SepEnd(s, i).None?
    ensures r.None? ==> forall i :: from <= i <= |s| ==> SepEnd(s, i).None?
    decreases |s| - from
  {
    if from == |s| then None
    else match SepEnd(s, from)
      case Some(e) => Some((from, e))
      case None => NextSep(s, from + 1)
  }

  // `doc.split(/\s+(?:\*\s+)+/m)[1].trim()`: the text between the first and the second
  // separator (or the end), trimmed. Without a separator there is no second piece, and
  // `undefined.trim()` throws.
  function Brief(doc: string): (r: Result<string>)
    ensures r.Throw? <==> NextSep(doc, 0).None?
    ensures r.Ok? ==> r.value == [] || (!IsSpace(r.value[0]) && !IsSpace(r.value[|r.value| - 1]))
  {
    match NextSep(doc, 0)
    case None => Throw("TypeError: Cannot read properties of undefined (reading 'trim')")
    case Some((_, e1)) =>
      match NextSep(doc, e1)
      case None => Ok(Trim(doc[e1..]))
      case Some((s2, _)) => Ok(Trim(doc[e1..s2]))
  }

  // `[, name, ...desc] = option.split(/\s+/)`: the second word.
  function OptionName(option: string): string
  {
    var w := SplitWords(option);
    if |w| > 1 then w[1] else "undefined"
  }

  /** The remaining words joined by single spaces. */
  function OptionDescription(option: string): string
  {
    var w := SplitWords(option);
    if |w| > 2 then Join(w[2..], " ") else ""
  }

  /** The `forEach` over the sorted option lines (src/utils/from-files.js:26-32): each
      stores its description under its name, later lines overwriting earlier ones. */
  function OptionEntries(config: Config, options: seq<string>): Config
  {
    if options == [] then config
    else
      var o := options[|options| - 1];
      OptionEntries(config, options[..|options| - 1])[OptionName(o) := OptionDescription(o)]
  }

  /** The option names of a list of option lines. */
  function Names(options: seq<string>): (r: set<string>)
    ensures forall j :: 0 <= j < |options| ==> OptionName(options[j]) in r
  {
    if options == [] then {} else Names(options[..|options| - 1]) + {OptionName(options[|options| - 1])}
  }

  /** The entries are those already there plus one per option name, and an entry no
      option names keeps its value. */
  lemma {:induction false} OptionEntriesKeys(config: Config, options: seq<string>)
    ensures OptionEntries(config, options).Keys == config.Keys + Names(options)
    ensures forall k :: k in config && k !in Names(options) ==> OptionEntries(config, options)[k] == config[k]
  {
    if options != [] {
      OptionEntriesKeys(config, options[..|options| - 1]);
    }
  }

  /** The entry of an option name holds the description of the last line with that name. */
  lemma {:induction false} OptionEntriesLastWins(config: Config, options: seq<string>, j: nat)
    requires j < |options|
    requires forall i :: j < i < |options| ==> OptionName(options[i]) != OptionName(options[j])
    ensures OptionName(options[j]) in OptionEntries(config, options)
    ensures OptionEntries(config, options)[OptionName(options[j])] == OptionDescription(options[j])
  {
    var init := options[..|options| - 1];
    if j < |options| - 1 {
      assert forall i :: j < i < |init| ==> init[i] == options[i];
      OptionEntriesLastWins(config, init, j);
    }
  }

  /** What one file contributes: nothing when there is no complete block or the block
      documents no option; otherwise the brief under `?` followed by the options in
      sorted order. Computing the brief can throw. */
  function FileEntry(text: string): (r: Result<Optional<Config>>)
    ensures FirstDoc(text).None? ==> r == Ok(None)
    ensures FirstDoc(text).Some? && (forall i :: 0 <= i < |FirstDoc(text).value| ==> !OptionAt(FirstDoc(text).value, i)) ==> r == Ok(None)
    ensures r.Throw? <==> FirstDoc(text).Some? && OptionMatches(FirstDoc(text).value, 0) != [] && Brief(FirstDoc(text).value).Throw?
  {
    match FirstDoc(text)
    case None => Ok(None)
    case Some(doc) =>
      var options := OptionMatches(doc, 0);
      if options == [] then Ok(None)
      else match Brief(doc)
        case Throw(m) => Throw(m)
        case Ok(brief) => Ok(Some(OptionEntries(map["?" := brief], Sort(options))))
  }

  /** An entry is only made for a block holding an `@option` line. */
  lemma EntryNeedsOption(text: string)
    requires FileEntry(text).Ok? && FileEntry(text).value.Some?
    ensures exists i :: 0 <= i < |FirstDoc(text).value| && OptionAt(FirstDoc(text).value, i)
  {
  }

  /** The entry of a file whose block has brief `brief` and option lines `matches`: it
      holds the brief under `?` unless an option is itself named `?`, and an entry under
      the name of every option line. */
  lemma EntryContents(brief: string, matches: seq<string>)
    ensures var r := OptionEntries(map["?" := brief], Sort(matches));
            "?" in r && ("?" !in Names(matches) ==> r["?"] == brief)
    ensures var r := OptionEntries(map["?" := brief], Sort(matches));
            forall o :: o in matches ==> OptionName(o) in r
  {
    var options := Sort(matches);
    SortKeepsNames(matches);
    OptionEntriesKeys(map["?" := brief], options);
    forall o | o in matches ensures OptionName(o) in Names(matches) {
      var j :| 0 <= j < |matches| && matches[j] == o;
    }
  }

  /** Sorting the option lines does not change their names. */
  lemma SortKeepsNames(xs: seq<string>)
    ensures Names(Sort(xs)) == Names(xs)
  {
    var ys := Sort(xs);
    NamesOfMultiset(xs, ys);
    NamesOfMultiset(ys, xs);
  }

  lemma {:induction false} NamesOfMultiset(xs: seq<string>, ys: seq<string>)
    requires multiset(xs) == multiset(ys)
    ensures Names(xs) <= Names(ys)
  {
    if xs != [] {
      var init := xs[..|xs| - 1];
      var last := xs[|xs| - 1];
      assert xs == init + [last];
      assert last in multiset(ys);
      assert multiset(init) <= multiset(ys);
      NamesIn(init, ys);
    }
  }

  lemma {:induction false} NamesIn(xs: seq<string>, ys: seq<string>)
    requires multiset(xs) <= multiset(ys)
    ensures Names(xs) <= Names(ys)
  {
    if xs != [] {
      var init := xs[..|xs| - 1];
      var last := xs[|xs| - 1];
      assert xs == init + [last];
      assert last in multiset(ys);
      var j :| 0 <= j < |ys| && ys[j] == last;
      NamesIn(init, ys);
    }
  }

  /** Where the scanned commands are collected. */
  class Output {
    var commands: map<string, Config>

    constructor (commands: map<string, Config>)
      ensures this.commands == commands
    {
      this.commands := commands;
    }

    /** `parseFile(output, file)` (src/utils/from-files.js:10-37): a path that does not
        exist, or a file without a documented option, changes nothing; otherwise the
        entry is stored under the file's base name. */
    method ParseFile(files: map<string, string>, file: Value, basename: string -> string) returns (c: Completion)
      modifies this
      ensures !(file.Str? && file.s in files) ==> c == Normal && commands == old(commands)
      ensures file.Str? && file.s in files ==>
                match FileEntry(files[file.s])
                case Throw(m) => c == Thrown(m) && commands == old(commands)
                case Ok(None) => c == Normal && commands == old(commands)
                case Ok(Some(config)) => c == Normal && commands == old(commands)[basename(file.s) := config]
    {
      c := Normal;
      if !(file.Str? && file.s in files) {
        return;
      }
      var doc := FirstDoc(files[file.s]);
      if doc.None? {
        return;
      }
      var options := OptionMatches(doc.value, 0);
      if options == [] {
        return;
      }
      var brief := Brief(doc.value);
      if brief.Throw? {
        return Thrown(brief.message);
      }
      var config := StoreOptions(map["?" := brief.value], Sort(options));
      commands := commands[basename(file.s) := config];
    }

    /** `fromFiles(output, files)` (src/utils/from-files.js:55-61): every file of an array
        is scanned in order; an exception stops the scan and propagates. Anything but an
        array changes nothing. */
    method FromFiles(files: map<string, string>, list: Value, basename: string -> string) returns (c: Completion)
      modifies this
      ensures !list.Arr? ==> c == Normal && commands == old(commands)
      ensures list.Arr? ==> Outcome(commands, c) == ScanFiles(old(commands), files, list.elems, basename)
    {
      c := Normal;
      if !list.Arr? {
        return;
      }
      var i := 0;
      while i < |list.elems|
        invariant 0 <= i <= |list.elems|
        invariant Outcome(commands, Normal) == ScanFiles(old(commands), files, list.elems[..i], basename)
        invariant c == Normal
      {
        assert list.elems[..i + 1][..i] == list.elems[..i];
        ghost var before := commands;
        c := ParseFile(files, list.elems[i], basename);
        assert Outcome(commands, c) == ScanFile(before, files, list.elems[i], basename);
        if c.Thrown? {
          ScanThrownSticks(old(commands), files, list.elems, basename, i + 1);
          return;
        }
        i := i + 1;
      }
      assert list.elems[..i] == list.elems;
    }
  }

  /** The `forEach` of `_options.sort()`. */
  method StoreOptions(config: Config, options: seq<string>) returns (r: Config)
    ensures r == OptionEntries(config, options)
  {
    r := config;
    var i := 0;
    while i < |options|
      invariant 0 <= i <= |options|
      invariant r == OptionEntries(config, options[..i])
    {
      assert options[..i + 1][..i] == options[..i];
      r := r[OptionName(options[i]) := OptionDescription(options[i])];
      i := i + 1;
    }
    assert options[..i] == options;
  }

  /** One file's effect on the collected commands. */
  function ScanFile(commands: map<string, Config>, files: map<string, string>, file: Value, basename: string -> string): Outcome<map<string, Config>>
  {
    if !(file.Str? && file.s in files) then Outcome(commands, Normal)
    else match FileEntry(files[file.s])
      case Throw(m) => Outcome(commands, Thrown(m))
      case Ok(None) => Outcome(commands, Normal)
      case Ok(Some(config)) => Outcome(commands[basename(file.s) := config], Normal)
  }

  /** The files scanned in order, up to the first exception. */
  function ScanFiles(commands: map<string, Config>, files: map<string, string>, list: seq<Value>, basename: string -> string): Outcome<map<string, Config>>
  {
    if list == [] then Outcome(commands, Normal)
    else
      var prev := ScanFiles(commands, files, list[..|list| - 1], basename);
      if prev.completion.Thrown? then prev
      else ScanFile(prev.state, files, list[|list| - 1], basename)
  }

  /** Once a file throws, the later files are not scanned. */
  lemma {:induction false} ScanThrownSticks(commands: map<string, Config>, files: map<string, string>, list: seq<Value>, basename: string -> string, j: nat)
    requires j <= |list|
    requires ScanFiles(commands, files, list[..j], basename).completion.Thrown?
    ensures ScanFiles(commands, files, list, basename) == ScanFiles(commands, files, list[..j], basename)
  {
    if |list| == j {
      assert list[..j] == list;
    } else {
      var init := list[..|list| - 1];
      assert init[..j] == list[..j];
      ScanThrownSticks(commands, files, init, basename, j);
    }
  }

  /** Files that do not exist leave the collected commands as they are. */
  lemma {:induction false} MissingFilesChangeNothing(commands: map<string, Config>, files: map<string, string>, list: seq<Value>, basename: string -> string)
    requires forall i :: 0 <= i < |list| ==> !(list[i].Str? && list[i].s in files)
    ensures ScanFiles(commands, files, list, basename) == Outcome(commands, Normal)
  {
    if list != [] {
      MissingFilesChangeNothing(commands, files, list[..|list| - 1], basename);
    }
  }
}
