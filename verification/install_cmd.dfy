/** The `install` command of src/commands/install.js: each module named on the command
    line after `install` adds a project directory, either a local path or a repository
    cloned with `git` or `hg` next to the root directory, and the resulting list is handed
    to the `config` command. The file system is a set of existing paths; path operations
    and the scripts (`git`/`hg clone`, `npm install`) are parameters. */
module InstallCmd {
  import opened Text
  import opened JsValue

  /** What the command needs from its environment. `script(fs, cmd, args, cwd)` runs a
      command and gives the file system it leaves, and whether its promise rejected. */
  datatype Env = Env(
    resolve: string -> string,
    isAbsolute: string -> bool,
    basename: (string, string) -> string,
    join: (string, string) -> string,
    outdir: string,
    script: (set<string>, string, seq<string>, string) -> Outcome<set<string>>)

  /** The existing paths and the directory list built so far. */
  datatype InstallState = InstallState(fs: set<string>, dirs: seq<string>)

  /** The module separator. */
  const Sep: char := '~'

  /** `[type, ...parts] = module.split('~')`: the text before the first `~`. */
  function ModuleType(m: string): string
  {
    Split(m, Sep)[0]
  }

  /** `parts.join('~')`: the rest after the first `~`, or `''` when there is none. */
  function ModulePath(m: string): string
  {
    Join(Split(m, Sep)[1..], [Sep])
  }

  /** The type holds no `~`; with a `~` the module is type, `~` and path, and without one
      the module is all type. */
  lemma {:induction false} ModuleParts(m: string)
    ensures Sep !in ModuleType(m)
    ensures Sep in m ==> m == ModuleType(m) + [Sep] + ModulePath(m)
    ensures Sep !in m ==> ModuleType(m) == m && ModulePath(m) == ""
  {
    var parts := Split(m, Sep);
    JoinSplit(m, Sep);
    if Sep !in m {
      SplitNone(m, Sep);
    }
  }

  /** A module written `type~path` whose type has no `~` splits back into the two. */
  lemma TypedModule(kind: string, p: string)
    requires Sep !in kind
    ensures ModuleType(kind + [Sep] + p) == kind && ModulePath(kind + [Sep] + p) == p
  {
    SplitAt(kind, Sep, p);
    JoinSplit(p, Sep);
  }

  /** The exception a module whose target directory already exists raises. */
  function ExistsError(name: string, moddir: string): string
  {
    "El módulo " + name + " ya existe. Se debe eliminar el directorio o usar file~" + moddir
  }

  /** The exception an unrecognised module raises. */
  function UnknownError(m: string): string
  {
    "Formato desconocido del módulo: " + m
  }

  /** The `git`/`hg` branch (src/commands/install.js:32-66): refuse an existing target,
      clone in the parent of the root directory, and add the module directory only when
      the clone produced it, running `npm install` in it when it has a `package.json`. */
  function CloneModule(st: InstallState, kind: string, p: string, env: Env): (r: Outcome<InstallState>)
    ensures env.join(env.outdir, env.basename(p, "." + kind)) in st.fs ==>
              r == Outcome(st, Thrown(ExistsError(env.basename(p, "." + kind), env.join(env.outdir, env.basename(p, "." + kind)))))
    ensures r.state.dirs == st.dirs || r.state.dirs == st.dirs + [env.join(env.outdir, env.basename(p, "." + kind))]
  {
    var name := env.basename(p, "." + kind);
    var moddir := env.join(env.outdir, name);
    if moddir in st.fs then Outcome(st, Thrown(ExistsError(name, moddir)))
    else
      var cloned := env.script(st.fs, kind, ["clone", p], env.outdir);
      if cloned.completion.Thrown? then Outcome(st.(fs := cloned.state), cloned.completion)
      else if moddir !in cloned.state then Outcome(st.(fs := cloned.state), Normal)
      else
        var added := InstallState(cloned.state, st.dirs + [moddir]);
        if env.join(moddir, "package.json") !in cloned.state then Outcome(added, Normal)
        else
          var installed := env.script(cloned.state, "npm", ["install"], moddir);
          Outcome(added.(fs := installed.state), installed.completion)
  }

  /** One pass of the `for` loop (src/commands/install.js:23-77). Only a string has a
      `split` method. */
  function InstallModule(st: InstallState, m: Value, env: Env): (r: Outcome<InstallState>)
  {
    if !m.Str? then Outcome(st, Thrown(SplitError(m)))
    else
      var kind := ModuleType(m.s);
      var p := ModulePath(m.s);
      if kind == "file" then Outcome(st.(dirs := st.dirs + [env.resolve(p)]), Normal)
      else if kind == "git" || kind == "hg" then CloneModule(st, kind, p, env)
      else if env.isAbsolute(m.s) || (|m.s| > 0 && m.s[0] == '.') then Outcome(st.(dirs := st.dirs + [env.resolve(m.s)]), Normal)
      else Outcome(st, Thrown(UnknownError(m.s)))
  }

  /** The TypeError `module.split('~')` raises on a value that is not a string. */
  function SplitError(m: Value): string
  {
    if m == Undefined || m == Null then "TypeError: Cannot read properties of " + ToJsString(m) + " (reading 'split')"
    else "TypeError: _module.split is not a function"
  }

  /** A module adds at most one directory, after the ones already listed. */
  lemma InstallModuleAppends(st: InstallState, m: Value, env: Env)
    ensures var r := InstallModule(st, m, env);
            |st.dirs| <= |r.state.dirs| <= |st.dirs| + 1 && r.state.dirs[..|st.dirs|] == st.dirs
  {
  }

  /** `file~p` adds the resolved `p`. */
  lemma FileModule(st: InstallState, p: string, env: Env)
    ensures InstallModule(st, Str("file~" + p), env) == Outcome(st.(dirs := st.dirs + [env.resolve(p)]), Normal)
  {
    assert "file~" + p == "file" + [Sep] + p;
    TypedModule("file", p);
  }

  /** `git~p` and `hg~p` refuse a module whose directory already exists, before anything
      is cloned, and otherwise add the module directory exactly when the clone leaves it. */
  lemma RepositoryModule(st: InstallState, kind: string, p: string, env: Env)
    requires kind == "git" || kind == "hg"
    ensures var name := env.basename(p, "." + kind);
            var moddir := env.join(env.outdir, name);
            var r := InstallModule(st, Str(kind + "~" + p), env);
            (moddir in st.fs ==> r == Outcome(st, Thrown(ExistsError(name, moddir))))
            && (moddir !in st.fs && env.script(st.fs, kind, ["clone", p], env.outdir).completion == Normal ==>
                  (r.state.dirs == st.dirs + [moddir] <==> moddir in env.script(st.fs, kind, ["clone", p], env.outdir).state))
  {
    assert kind + "~" + p == kind + [Sep] + p;
    TypedModule(kind, p);
  }

  /** Any other module is added resolved when it is absolute or starts with `.`, and is
      otherwise an unknown format. */
  lemma OtherModule(st: InstallState, m: string, env: Env)
    requires ModuleType(m) != "file" && ModuleType(m) != "git" && ModuleType(m) != "hg"
    ensures env.isAbsolute(m) || (|m| > 0 && m[0] == '.') ==>
              InstallModule(st, Str(m), env) == Outcome(st.(dirs := st.dirs + [env.resolve(m)]), Normal)
    ensures !(env.isAbsolute(m) || (|m| > 0 && m[0] == '.')) ==>
              InstallModule(st, Str(m), env) == Outcome(st, Thrown(UnknownError(m)))
  {
  }

  /** The modules handled in order, up to the first exception. */
  function InstallAll(st: InstallState, modules: seq<Value>, env: Env): Outcome<InstallState>
  {
    if modules == [] then Outcome(st, Normal)
    else
      var prev := InstallAll(st, modules[..|modules| - 1], env);
      if prev.completion.Thrown? then prev else InstallModule(prev.state, modules[|modules| - 1], env)
  }

  lemma {:induction false} InstallThrownSticks(st: InstallState, modules: seq<Value>, env: Env, j: nat)
    requires j <= |modules|
    requires InstallAll(st, modules[..j], env).completion.Thrown?
    ensures InstallAll(st, modules, env) == InstallAll(st, modules[..j], env)
  {
    if |modules| == j {
      assert modules[..j] == modules;
    } else {
      var init := modules[..|modules| - 1];
      assert init[..j] == modules[..j];
      InstallThrownSticks(st, init, env, j);
    }
  }

  /** The directories already configured come first, and each module adds at most one
      directory after them. */
  lemma {:induction false} ExistingFirst(st: InstallState, modules: seq<Value>, env: Env)
    ensures var r := InstallAll(st, modules, env);
            |st.dirs| <= |r.state.dirs| <= |st.dirs| + |modules| && r.state.dirs[..|st.dirs|] == st.dirs
  {
    if modules != [] {
      var init := modules[..|modules| - 1];
      ExistingFirst(st, init, env);
      var prev := InstallAll(st, init, env);
      InstallModuleAppends(prev.state, modules[|modules| - 1], env);
      var r := InstallAll(st, modules, env);
      assert r.state.dirs[..|prev.state.dirs|] == prev.state.dirs;
      assert r.state.dirs[..|st.dirs|] == prev.state.dirs[..|st.dirs|];
    }
  }

  /** Local modules only: `file~p` for each path, in order, adds the resolved paths in
      that order and never throws. */
  lemma {:induction false} FileModules(st: InstallState, paths: seq<string>, env: Env)
    ensures InstallAll(st, seq(|paths|, i requires 0 <= i < |paths| => Str("file~" + paths[i])), env)
            == Outcome(st.(dirs := st.dirs + seq(|paths|, i requires 0 <= i < |paths| => env.resolve(paths[i]))), Normal)
  {
    var modules := seq(|paths|, i requires 0 <= i < |paths| => Str("file~" + paths[i]));
    if paths != [] {
      var init := paths[..|paths| - 1];
      var p := paths[|paths| - 1];
      FileModules(st, init, env);
      assert modules[..|modules| - 1] == seq(|init|, i requires 0 <= i < |init| => Str("file~" + init[i]));
      var prev := st.(dirs := st.dirs + seq(|init|, i requires 0 <= i < |init| => env.resolve(init[i])));
      FileModule(prev, p, env);
      assert prev.dirs + [env.resolve(p)] == st.dirs + seq(|paths|, i requires 0 <= i < |paths| => env.resolve(paths[i]));
    } else {
      assert seq(|paths|, i requires 0 <= i < |paths| => env.resolve(paths[i])) == [];
      assert st.dirs + [] == st.dirs;
    }
  }

  /** `argv` is an object whose `_` array starts with `'install'` (src/commands/install.js:17-20). */
  predicate Applies(argv: Value)
  {
    argv.Obj? && Field(argv.props, "_").Arr? && |Field(argv.props, "_").elems| > 0
    && Field(argv.props, "_").elems[0] == Str("install")
  }

  /** `Object.values(cli.directories)`, in ascending key order. */
  function Values(directories: map<string, string>): (r: seq<string>)
    ensures |r| == |directories|
    ensures forall i :: 0 <= i < |r| ==> r[i] in directories.Values
  {
    var keys := SortedKeys(directories.Keys);
    seq(|keys|, i requires 0 <= i < |keys| => directories[keys[i]])
  }

  /** `install(cli, argv)` (src/commands/install.js:15-88): nothing happens unless the
      arguments name `install`; then every module after it is handled in order, starting
      from the configured directories. A normal end hands `dirs` to the `config` command;
      an exception rejects the promise and leaves the file system as the scripts left it. */
  method Install(argv: Value, directories: map<string, string>, fs: set<string>, env: Env)
    returns (r: Optional<Outcome<InstallState>>)
    ensures !Applies(argv) ==> r == None
    ensures Applies(argv) ==>
              r == Some(InstallAll(InstallState(fs, Values(directories)), Field(argv.props, "_").elems[1..], env))
  {
    if !Applies(argv) {
      return None;
    }
    var modules := Field(argv.props, "_").elems[1..];
    var init := InstallState(fs, Values(directories));
    var st := init;
    var i := 0;
    while i < |modules|
      invariant 0 <= i <= |modules|
      invariant InstallAll(init, modules[..i], env) == Outcome(st, Normal)
    {
      assert modules[..i + 1][..i] == modules[..i];
      var o := InstallModule(st, modules[i], env);
      if o.completion.Thrown? {
        InstallThrownSticks(init, modules, env, i + 1);
        return Some(o);
      }
      st := o.state;
      i := i + 1;
    }
    assert modules[..i] == modules;
    r := Some(Outcome(st, Normal));
  }
}
