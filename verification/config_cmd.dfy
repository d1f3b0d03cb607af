/** The `config` command of src/commands/config.js: it rebuilds the configuration file.
    The project directories named on the command line are keyed by their project name and
    laid over the configured ones; the built-in commands are collected without a prefix;
    then every directory, in ascending key order, contributes its commands under its key,
    or is dropped from the configuration when it or its commands are missing. The file
    system is a set of existing paths; path operations, the directory listing and the
    file loader are parameters. */
module ConfigCmd {
  import opened Text
  import opened JsValue
  import opened ParseCommandsTool
  import opened CommentTools

  /** What the command needs from its environment. `convert` is `cc2sep.trimmed`,
      `resolve(a, b)` is `path.resolve(a, b)`, `relative(a, b)` is `path.relative(a, b)`,
      and `commandsDir(d)` is `path.join(d, 'src', 'commands')`. */
  datatype Env = Env(
    basename: string -> string,
    convert: string -> string,
    cwd: string,
    rootDir: string,
    ownDir: string,
    resolve: (string, string) -> string,
    relative: (string, string) -> string,
    commandsDir: string -> string,
    fs: set<string>,
    scandir: string -> Value,
    load: Value -> Result<SourceFile>,
    cc2sep: string -> string)

  /** The characters `.` does not match. */
  predicate IsTerminator(c: char)
  {
    c == '\n' || c == '\r' || c == '\U{2028}' || c == '\U{2029}'
  }

  /** The optional dash of `-?` after index `i`. */
  function DashEnd(s: string, i: nat): (e: nat)
    requires i <= |s|
    ensures i <= e <= |s|
  {
    if i < |s| && s[i] == '-' then i + 1 else i
  }

  /** The last index in `[lo, hi)` where `-cli` occurs. */
  function LastDashCli(s: string, lo: nat, hi: nat): (r: Optional<nat>)
    requires hi <= |s|
    ensures r.Some? ==> lo <= r.value < hi && At(s, r.value, "-cli")
    ensures r.Some? ==> forall q :: r.value < q < hi ==> !At(s, q, "-cli")
    ensures r.None? ==> forall q :: lo <= q < hi ==> !At(s, q, "-cli")
    decreases hi
  {
    if hi <= lo then None
    else if At(s, hi - 1, "-cli") then Some(hi - 1)
    else LastDashCli(s, lo, hi - 1)
  }

  // The end of the match of `/(^|.+-)cli-?/` that starts at `p`, if any: at the start of
  // the text `^cli` is tried first; otherwise the greedy `.+` runs to the first line
  // terminator and backs off to the last `-cli` it can reach.
  function CliMatchAt(s: string, p: nat): (r: Optional<nat>)
    requires p <= |s|
    ensures r.Some? ==> p < r.value <= |s|
  {
    if p == 0 && At(s, 0, "cli") then Some(DashEnd(s, 3))
    else
      var e := FindFrom(s, p, IsTerminator);
      match LastDashCli(s, p + 1, e)
      case None => None
      case Some(q) => Some(DashEnd(s, q + 4))
  }

  /** The leftmost match at or after `p`: its start and end. */
  function FirstCliMatch(s: string, p: nat): (r: Optional<(nat, nat)>)
    requires p <= |s|
    ensures r.Some? ==> p <= r.value.0 < r.value.1 <= |s|
    decreases |s| - p
  {
    match CliMatchAt(s, p)
    case Some(e) => Some((p, e))
    case None => if p == |s| then None else FirstCliMatch(s, p + 1)
  }

  /** `s.replace(/(^|.+-)cli-?/, '')`: the first match removed. */
  function StripCli(s: string): (r: string)
    ensures |r| <= |s|
  {
    match FirstCliMatch(s, 0)
    case None => s
    case Some((a, b)) => s[..a] + s[b..]
  }

  /** Without `cli` anywhere the name is kept. */
  lemma NoCliKept(s: string)
    requires forall i :: 0 <= i <= |s| ==> !At(s, i, "cli")
    ensures StripCli(s) == s
  {
    NoCliNoMatch(s, 0);
  }

  lemma {:induction false} NoCliNoMatch(s: string, p: nat)
    requires p <= |s|
    requires forall i :: 0 <= i <= |s| ==> !At(s, i, "cli")
    ensures FirstCliMatch(s, p) == None
    decreases |s| - p
  {
    var e := FindFrom(s, p, IsTerminator);
    var m := LastDashCli(s, p + 1, e);
    if m.Some? {
      var q := m.value;
      assert s[q + 1..q + 4] == s[q..q + 4][1..];
      assert At(s, q + 1, "cli");
    }
    if p < |s| {
      NoCliNoMatch(s, p + 1);
    }
  }

  /** A name starting with `cli` loses it and the dash after it. */
  lemma CliFirst(rest: string)
    ensures StripCli("cli-" + rest) == rest
    ensures StripCli("cli") == ""
  {
    var s := "cli-" + rest;
    assert s[0..3] == "cli";
    assert s[4..] == rest;
    assert "cli"[0..3] == "cli";
  }

  /** A name `<prefix>-cli-<rest>`, without line terminators and with no later `-cli`,
      loses everything up to the dash after `cli`. */
  lemma ProjectName(prefix: string, rest: string)
    requires |prefix| >= 1 && !At(prefix, 0, "cli")
    requires forall i :: 0 <= i < |prefix| ==> !IsTerminator(prefix[i])
    requires forall i :: 0 <= i < |rest| ==> !IsTerminator(rest[i])
    requires forall q :: 0 <= q <= |rest| ==> !At("cli-" + rest, q, "-cli")
    ensures StripCli(prefix + "-cli-" + rest) == rest
  {
    var u := "cli-" + rest;
    var s := prefix + "-cli-" + rest;
    var n := |prefix|;
    assert s == prefix + ("-" + u) == prefix + "-" + u;
    NotCliStart(prefix, "-" + u);
    NoTerminator(prefix, "-cli-", rest);
    NoLaterDashCli(prefix, u);
    var e := FindFrom(s, 0, IsTerminator);
    assert e == |s|;
    assert s[n..n + 4] == "-cli";
    LastDashCliIs(s, 1, e, n);
    assert s[n + 4] == '-';
    assert s[n + 5..] == rest;
  }

  lemma NotCliStart(prefix: string, t: string)
    requires |prefix| >= 1 && !At(prefix, 0, "cli")
    requires |t| >= 1 && t[0] == '-'
    ensures !At(prefix + t, 0, "cli")
  {
    var s := prefix + t;
    var n := |prefix|;
    if n >= 3 {
      assert s[0..3] == prefix[0..3];
    } else if |s| >= 3 {
      assert s[0..3][n] == t[0];
    }
  }

  lemma LastDashCliIs(s: string, lo: nat, hi: nat, n: nat)
    requires lo <= n < hi <= |s| && At(s, n, "-cli")
    requires forall q :: n < q < hi ==> !At(s, q, "-cli")
    ensures LastDashCli(s, lo, hi) == Some(n)
  {
  }

  lemma NoTerminator(a: string, b: string, c: string)
    requires forall i :: 0 <= i < |a| ==> !IsTerminator(a[i])
    requires forall i :: 0 <= i < |b| ==> !IsTerminator(b[i])
    requires forall i :: 0 <= i < |c| ==> !IsTerminator(c[i])
    ensures forall i :: 0 <= i < |a + b + c| ==> !IsTerminator((a + b + c)[i])
  {
  }

  lemma NoLaterDashCli(prefix: string, u: string)
    requires |u| >= 4
    requires forall q :: 0 <= q <= |u| - 4 ==> !At(u, q, "-cli")
    ensures forall q :: |prefix| < q < |prefix + "-" + u| ==> !At(prefix + "-" + u, q, "-cli")
  {
    var s := prefix + "-" + u;
    var n := |prefix|;
    forall q | n < q < |s| ensures !At(s, q, "-cli") {
      if q + 4 <= |s| {
        assert s[q..q + 4] == u[q - n - 1..q - n + 3];
        assert !At(u, q - n - 1, "-cli");
      }
    }
  }

  /** The key `toObject` files a directory under: the converted base name with `cli` removed,
      or `cli` when nothing is left. */
  function DirKey(dir: string, env: Env): (k: string)
    ensures k != ""
  {
    var s := StripCli(env.convert(env.basename(dir)));
    if s == "" then "cli" else s
  }

  /** `toObject(directories)` (src/commands/config.js:55-62) as a value. */
  function DirMap(dirs: seq<string>, env: Env): map<string, string>
  {
    if dirs == [] then map[]
    else DirMap(dirs[..|dirs| - 1], env)[DirKey(dirs[|dirs| - 1], env) := dirs[|dirs| - 1]]
  }

  /** The keys of the directories, as a set. */
  function DirKeys(dirs: seq<string>, env: Env): (r: set<string>)
    ensures forall j :: 0 <= j < |dirs| ==> DirKey(dirs[j], env) in r
  {
    if dirs == [] then {}
    else
      var init := dirs[..|dirs| - 1];
      assert forall j :: 0 <= j < |init| ==> init[j] == dirs[j];
      DirKeys(init, env) + {DirKey(dirs[|dirs| - 1], env)}
  }

  /** One entry per key, and each entry is a directory filed under it. */
  lemma {:induction false} DirMapKeys(dirs: seq<string>, env: Env)
    ensures DirMap(dirs, env).Keys == DirKeys(dirs, env)
    ensures forall k :: k in DirMap(dirs, env) ==> DirMap(dirs, env)[k] in dirs && DirKey(DirMap(dirs, env)[k], env) == k
  {
    if dirs != [] {
      DirMapKeys(dirs[..|dirs| - 1], env);
    }
  }

  /** A later directory with the same key replaces an earlier one. */
  lemma {:induction false} DirMapLastWins(dirs: seq<string>, env: Env, j: nat)
    requires j < |dirs|
    requires forall i :: j < i < |dirs| ==> DirKey(dirs[i], env) != DirKey(dirs[j], env)
    ensures DirKey(dirs[j], env) in DirMap(dirs, env) && DirMap(dirs, env)[DirKey(dirs[j], env)] == dirs[j]
  {
    var init := dirs[..|dirs| - 1];
    if j < |dirs| - 1 {
      assert forall i :: j < i < |init| ==> init[i] == dirs[i];
      DirMapLastWins(init, env, j);
    }
  }

  /** `toObject` with its `forEach`. */
  method ToObject(dirs: seq<string>, env: Env) returns (r: map<string, string>)
    ensures r == DirMap(dirs, env)
  {
    r := map[];
    var i := 0;
    while i < |dirs|
      invariant 0 <= i <= |dirs|
      invariant r == DirMap(dirs[..i], env)
    {
      assert dirs[..i + 1][..i] == dirs[..i];
      r := r[DirKey(dirs[i], env) := dirs[i]];
      i := i + 1;
    }
    assert dirs[..i] == dirs;
  }

  /** The exception `path.basename` raises on a value that is not a string. */
  const PathTypeError: string := "TypeError [ERR_INVALID_ARG_TYPE]: The \"path\" argument must be of type string"

  /** The directories of a list, which must all be strings. */
  function Strings(elems: seq<Value>): (r: Result<seq<string>>)
    ensures r.Throw? <==> exists i :: 0 <= i < |elems| && !elems[i].Str?
    ensures r.Ok? ==> |r.value| == |elems| && forall i :: 0 <= i < |elems| ==> elems[i] == Str(r.value[i])
  {
    if elems == [] then Ok([])
    else if !elems[0].Str? then Throw(PathTypeError)
    else match Strings(elems[1..])
      case Throw(m) => Throw(m)
      case Ok(rest) => Ok([elems[0].s] + rest)
  }

  /** The argument handling of src/commands/config.js:76-89: a string becomes a one-element
      list (the working directory when empty), a list or an object's values are keyed by
      `toObject`, and the result is laid over the configured directories; anything else
      leaves the configured directories as they are. */
  function Normalise(arg: Value, configured: map<string, string>, env: Env): (r: Result<map<string, string>>)
    ensures arg.Str? ==> r == Ok(configured + DirMap([if arg.s == "" then env.cwd else arg.s], env))
    ensures !arg.Str? && !arg.Arr? && !arg.Obj? ==> r == Ok(configured)
    ensures r.Ok? ==> configured.Keys <= r.value.Keys
  {
    match arg
    case Str(s) => Ok(configured + DirMap([if s == "" then env.cwd else s], env))
    case Arr(elems) =>
      (match Strings(elems)
       case Throw(m) => Throw(m)
       case Ok(dirs) => Ok(configured + DirMap(dirs, env)))
    case Obj(props, _) =>
      (var keys := SortedKeys(props.Keys);
       match Strings(seq(|keys|, i requires 0 <= i < |keys| => props[keys[i]]))
       case Throw(m) => Throw(m)
       case Ok(dirs) => Ok(configured + DirMap(dirs, env)))
    case _ => Ok(configured)
  }

  /** The directories given on the command line win over the configured ones, and the
      configured ones they do not name are kept. */
  lemma ArgumentOverrides(dirs: seq<string>, configured: map<string, string>, env: Env)
    ensures Normalise(Arr(seq(|dirs|, i requires 0 <= i < |dirs| => Str(dirs[i]))), configured, env) == Ok(configured + DirMap(dirs, env))
    ensures forall k :: k in DirMap(dirs, env) ==> (configured + DirMap(dirs, env))[k] == DirMap(dirs, env)[k]
    ensures forall k :: k in configured && k !in DirKeys(dirs, env) ==> (configured + DirMap(dirs, env))[k] == configured[k]
  {
    var elems := seq(|dirs|, i requires 0 <= i < |dirs| => Str(dirs[i]));
    var r := Strings(elems);
    assert r.Ok?;
    assert r.value == dirs;
    DirMapKeys(dirs, env);
  }

  /** The messages the command logs at the `error` level. */
  function MissingDir(d: string): string { "El directorio " + d + " no existe" }
  function NoCommands(d: string): string { "El directorio " + d + " no tiene comandos" }
  function NotFound(d: string): string { "No se encontró el directorio " + d }

  /** The commands the extractor finds in the files listed in `dir`. */
  function Found(dir: string, env: Env): Table
  {
    var list := env.scandir(dir);
    if list.Arr? then ExtractFiles(map[], list.elems, env.load, env.cc2sep).state else map[]
  }

  /** What `build(cli, prefix, directory, config)` (src/commands/config.js:16-45) does
      with a directory: nothing without `src/commands`, nothing when no command is found
      there, otherwise the commands found rewritten under `prefix`, or the exception the
      rewriting throws. */
  datatype BuildResult = MissingCommands | NoneFound | BuildThrew(message: string) | Built(table: Table)

  function BuildOf(prefix: string, directory: string, env: Env): BuildResult
  {
    var dir := env.commandsDir(directory);
    if dir !in env.fs then MissingCommands
    else
      var found := Found(dir, env);
      if found == map[] then NoneFound
      else
        var parsed := ParseNames(found, SortedKeys(found.Keys), prefix);
        if parsed.completion.Thrown? then BuildThrew(parsed.completion.message)
        else Built(parsed.state)
  }

  /** `build` succeeds exactly when the directory has commands and their options can all
      be printed; its commands are then all filed under `prefix`. */
  lemma BuildPrefixes(prefix: string, directory: string, env: Env)
    requires prefix != ""
    requires env.commandsDir(directory) in env.fs
    requires var f := Found(env.commandsDir(directory), env);
             f != map[] && (forall k :: k in f ==> Stringifiable(f[k])) && NoCollision(f, prefix)
    ensures var f := Found(env.commandsDir(directory), env);
            var r := BuildOf(prefix, directory, env);
            r.Built? && (forall k :: k in f ==> prefix + k in r.table && r.table[prefix + k] == StringifiedOptions(f[k]))
            && (forall x :: x in r.table ==> exists k :: k in f && x == prefix + k)
  {
    var f := Found(env.commandsDir(directory), env);
    ParseCommandsRenames(f, prefix);
  }

  /** The extractor run over the files `scandir` lists in `dir`, starting from no commands. */
  method ExtractIn(dir: string, env: Env) returns (local: Table)
    ensures local == Found(dir, env)
  {
    var extractor := new Extractor(map[]);
    var _ := extractor.FromFiles(env.scandir(dir), env.load, env.cc2sep);
    local := extractor.commands;
  }

  /** `parseCommands(commands, prefix)` on a fresh table holding `local`. */
  method Rewrite(local: Table, prefix: string) returns (parsed: Outcome<Table>)
    ensures parsed == ParseNames(local, SortedKeys(local.Keys), prefix)
  {
    var table := new CommandTable(local);
    var c := table.ParseCommands(prefix);
    parsed := Outcome(table.commands, c);
  }

  /** The configuration file being rebuilt, and the error lines logged meanwhile. */
  class ConfigFile {
    var commands: Table
    var directories: map<string, string>
    var log: seq<string>

    constructor (commands: Table, directories: map<string, string>)
      ensures this.commands == commands && this.directories == directories && log == []
    {
      this.commands := commands;
      this.directories := directories;
      log := [];
    }

    /** `build(cli, prefix, directory, config)`: true exactly when commands were found and
        merged into the configuration; a missing directory or an empty one logs an error. */
    method Build(prefix: string, directory: string, env: Env) returns (found: bool, c: Completion)
      modifies this
      ensures var b := BuildOf(prefix, directory, env);
              found == b.Built? && (c.Thrown? <==> b.BuildThrew?) && (b.BuildThrew? ==> c.message == b.message)
      ensures var b := BuildOf(prefix, directory, env);
              commands == (if b.Built? then old(commands) + b.table else old(commands))
      ensures directories == old(directories)
      ensures var b := BuildOf(prefix, directory, env);
              log == old(log) + (if b.MissingCommands? then [MissingDir(env.commandsDir(directory))]
                                 else if b.NoneFound? then [NoCommands(env.commandsDir(directory))] else [])
    {
      ghost var b := BuildOf(prefix, directory, env);
      found, c := false, Normal;
      var dir := env.commandsDir(directory);
      if dir !in env.fs {
        assert b.MissingCommands?;
        log := log + [MissingDir(dir)];
        return;
      }
      var local := ExtractIn(dir, env);
      if local == map[] {
        assert b.NoneFound?;
        log := log + [NoCommands(dir)];
        return;
      }
      var parsed := Rewrite(local, prefix);
      if parsed.completion.Thrown? {
        assert b == BuildThrew(parsed.completion.message);
        c := parsed.completion;
        return;
      }
      assert b == Built(parsed.state);
      commands := commands + parsed.state;
      found := true;
    }

    /** One pass of the loop of src/commands/config.js:107-126, for key `p`. */
    method Visit(configured: map<string, string>, p: string, env: Env) returns (c: Completion)
      requires p in configured && p in directories && directories[p] == configured[p]
      modifies this
      ensures Outcome(State(commands, directories, log), c) == PruneOne(old(State(commands, directories, log)), configured, p, env)
      ensures forall k :: k != p && k in old(directories) ==> k in directories && directories[k] == old(directories)[k]
    {
      var dir := env.resolve(env.rootDir, directories[p]);
      c := Normal;
      if dir in env.fs {
        var found;
        found, c := Build(p + ":", dir, env);
        if c.Thrown? {
          return;
        }
        if found {
          var rel := env.relative(env.rootDir, dir);
          directories := directories[p := if rel == "" then "." else rel];
        } else {
          directories := directories - {p};
        }
      } else {
        directories := directories - {p};
        log := log + [NotFound(dir)];
      }
    }

    /** The loop of src/commands/config.js:107-126 over the directory keys `keys`. */
    method Prune(configured: map<string, string>, keys: seq<string>, env: Env) returns (c: Completion)
      requires forall i :: 0 <= i < |keys| ==> keys[i] in configured
      requires forall i, j :: 0 <= i < j < |keys| ==> keys[i] != keys[j]
      requires forall i :: 0 <= i < |keys| ==> keys[i] in directories && directories[keys[i]] == configured[keys[i]]
      modifies this
      ensures Outcome(State(commands, directories, log), c) == PruneAll(old(State(commands, directories, log)), configured, keys, env)
    {
      ghost var start := State(commands, directories, log);
      var i := 0;
      while i < |keys|
        invariant 0 <= i <= |keys|
        invariant PruneAll(start, configured, keys[..i], env) == Outcome(State(commands, directories, log), Normal)
        invariant forall j :: i <= j < |keys| ==> keys[j] in directories && directories[keys[j]] == configured[keys[j]]
      {
        PruneAllStep(start, configured, keys, i, env);
        c := Visit(configured, keys[i], env);
        if c.Thrown? {
          PruneThrownSticks(start, configured, keys, env, i + 1);
          return;
        }
        i := i + 1;
      }
      assert keys[..i] == keys;
      c := Normal;
    }
  }

  /** The parts of the configuration the loop changes. */
  datatype State = State(commands: Table, directories: map<string, string>, log: seq<string>)

  /** Where a directory key points. */
  function DirOf(configured: map<string, string>, p: string, env: Env): string
    requires p in configured
  {
    env.resolve(env.rootDir, configured[p])
  }

  /** One pass of the loop for key `p`, whose directory `dir` is `present` or not, given
      what `build` made of it (`b`), the path of `dir` relative to the root directory
      (`rel`) and the commands directory inside it (`cdir`): a directory that is missing,
      or whose `build` finds nothing, is deleted from the configuration; one whose `build`
      succeeds is kept with its relative path (`.` for the root itself) and its commands
      merged; an exception from `build` stops the loop. */
  function Visited(st: State, p: string, dir: string, present: bool, b: BuildResult, rel: string, cdir: string): (r: Outcome<State>)
    ensures r.completion.Thrown? <==> present && b.BuildThrew?
    ensures r.completion == Normal ==> (p in r.state.directories <==> present && b.Built?)
    ensures r.completion == Normal && present && b.Built? ==>
              r.state.directories[p] == (if rel == "" then "." else rel) && r.state.commands == st.commands + b.table
    ensures !(present && b.Built?) ==> r.state.commands == st.commands
    ensures forall k :: k != p ==> (k in r.state.directories <==> k in st.directories)
    ensures forall k :: k != p && k in st.directories ==> r.state.directories[k] == st.directories[k]
    ensures r.state.log == st.log + (if !present then [NotFound(dir)] else if b.MissingCommands? then [MissingDir(cdir)]
                                     else if b.NoneFound? then [NoCommands(cdir)] else [])
  {
    if !present then Outcome(State(st.commands, st.directories - {p}, st.log + [NotFound(dir)]), Normal)
    else
      var log := st.log + (if b.MissingCommands? then [MissingDir(cdir)] else if b.NoneFound? then [NoCommands(cdir)] else []);
      match b
      case BuildThrew(m) => Outcome(State(st.commands, st.directories, log), Thrown(m))
      case Built(table) => Outcome(State(st.commands + table, st.directories[p := if rel == "" then "." else rel], log), Normal)
      case _ => Outcome(State(st.commands, st.directories - {p}, log), Normal)
  }

  /** The pass of the loop for key `p` of the configured directories. */
  function PruneOne(st: State, configured: map<string, string>, p: string, env: Env): Outcome<State>
    requires p in configured
  {
    var dir := DirOf(configured, p, env);
    Visited(st, p, dir, dir in env.fs, BuildOf(p + ":", dir, env), env.relative(env.rootDir, dir), env.commandsDir(dir))
  }

  /** The loop over `keys`, stopped by the first exception. */
  function PruneAll(st: State, configured: map<string, string>, keys: seq<string>, env: Env): Outcome<State>
    requires forall i :: 0 <= i < |keys| ==> keys[i] in configured
  {
    if keys == [] then Outcome(st, Normal)
    else
      var prev := PruneAll(st, configured, keys[..|keys| - 1], env);
      if prev.completion.Thrown? then prev else PruneOne(prev.state, configured, keys[|keys| - 1], env)
  }

  lemma PruneAllStep(st: State, configured: map<string, string>, keys: seq<string>, i: nat, env: Env)
    requires forall j :: 0 <= j < |keys| ==> keys[j] in configured
    requires i < |keys|
    ensures var prev := PruneAll(st, configured, keys[..i], env);
            PruneAll(st, configured, keys[..i + 1], env) ==
              if prev.completion.Thrown? then prev else PruneOne(prev.state, configured, keys[i], env)
  {
    assert keys[..i + 1][..i] == keys[..i];
  }

  lemma {:induction false} PruneThrownSticks(st: State, configured: map<string, string>, keys: seq<string>, env: Env, j: nat)
    requires forall i :: 0 <= i < |keys| ==> keys[i] in configured
    requires j <= |keys| && PruneAll(st, configured, keys[..j], env).completion.Thrown?
    ensures PruneAll(st, configured, keys, env) == PruneAll(st, configured, keys[..j], env)
  {
    if |keys| == j {
      assert keys[..j] == keys;
    } else {
      var init := keys[..|keys| - 1];
      assert init[..j] == keys[..j];
      PruneThrownSticks(st, configured, init, env, j);
    }
  }

  /** Whether directory key `p` survives the loop. */
  predicate Kept(configured: map<string, string>, p: string, env: Env)
    requires p in configured
  {
    DirOf(configured, p, env) in env.fs && BuildOf(p + ":", DirOf(configured, p, env), env).Built?
  }

  /** The value a kept key ends with: its path relative to the root, `.` for the root. */
  function RelativeOf(configured: map<string, string>, p: string, env: Env): string
    requires p in configured
  {
    var rel := env.relative(env.rootDir, DirOf(configured, p, env));
    if rel == "" then "." else rel
  }

  /** After a loop that ends normally, a visited key is kept exactly when its directory
      exists and `build` succeeds, with its path made relative to the root; keys not
      visited are as they were. A key visited twice is decided the same way both times. */
  lemma {:induction false} PruneSpec(st: State, configured: map<string, string>, keys: seq<string>, env: Env)
    requires forall i :: 0 <= i < |keys| ==> keys[i] in configured
    ensures var r := PruneAll(st, configured, keys, env);
            r.completion == Normal ==>
              (forall k :: k in keys ==> (k in r.state.directories <==> Kept(configured, k, env)))
              && (forall k :: k in keys && Kept(configured, k, env) ==> r.state.directories[k] == RelativeOf(configured, k, env))
              && (forall k :: k !in keys ==> (k in r.state.directories <==> k in st.directories))
              && (forall k :: k !in keys && k in st.directories ==> r.state.directories[k] == st.directories[k])
  {
    if keys != [] {
      var init := keys[..|keys| - 1];
      var p := keys[|keys| - 1];
      PruneSpec(st, configured, init, env);
      var prev := PruneAll(st, configured, init, env);
      var r := PruneAll(st, configured, keys, env);
      if r.completion == Normal {
        assert prev.completion == Normal;
        assert r == PruneOne(prev.state, configured, p, env);
        assert forall k :: k in keys <==> k in init || k == p;
      }
    }
  }

  /** `config(cli, argv)` (src/commands/config.js:74-133): the directory argument is
      normalised (an exception there escapes), then inside the `try` the built-in commands
      are collected and printed without a prefix, the directories are visited in ascending
      key order, and the configuration is handed to `cli.save` (the `Some` state). An
      exception inside the `try` is caught: its message is logged after the error lines
      logged so far, and nothing is saved. */
  method Config(argv: Value, configured: map<string, string>, env: Env) returns (r: Result<Optional<State>>, log: seq<string>)
    ensures var dirs := Normalise(if argv.Obj? then Field(argv.props, "directories") else Undefined, configured, env);
            dirs.Throw? ==> r == Throw(dirs.message) && log == []
    ensures var dirs := Normalise(if argv.Obj? then Field(argv.props, "directories") else Undefined, configured, env);
            dirs.Ok? ==>
              var builtins := ParseNames(Found(env.ownDir, env), SortedKeys(Found(env.ownDir, env).Keys), "");
              var prune := PruneAll(State(builtins.state, dirs.value, []), dirs.value, SortedKeys(dirs.value.Keys), env);
              r.Ok?
              && (builtins.completion.Thrown? ==> r.value.None? && log == [builtins.completion.message])
              && (builtins.completion == Normal && prune.completion.Thrown? ==>
                    r.value.None? && log == prune.state.log + [prune.completion.message])
              && (builtins.completion == Normal && prune.completion == Normal ==>
                    r.value == Some(prune.state) && log == prune.state.log)
  {
    log := [];
    var arg := if argv.Obj? then Field(argv.props, "directories") else Undefined;
    var dirs := Normalise(arg, configured, env);
    if dirs.Throw? {
      return Throw(dirs.message), log;
    }
    var own := ExtractIn(env.ownDir, env);
    var builtins := Rewrite(own, "");
    if builtins.completion.Thrown? {
      return Ok(None), [builtins.completion.message];
    }
    var file := new ConfigFile(builtins.state, dirs.value);
    var keys := SortedKeys(dirs.value.Keys);
    var c := file.Prune(dirs.value, keys, env);
    if c.Thrown? {
      return Ok(None), file.log + [c.message];
    }
    r := Ok(Some(State(file.commands, file.directories, file.log)));
    log := file.log;
  }
}
