/** The command-line manager (src/Cli.js): it turns a command name such as `ftp:upload`
    into a search for a handler file under `<project>/src/commands`, runs the first
    handler it finds and logs when none answers `true`. The file system, `require` and
    the handlers themselves are parameters: a file system maps each probed file to what
    loading it gives, and each handler to what calling it returns. */
module CliModel {
  import opened Text
  import opened JsValue
  import opened Commands

  /** What calling a handler gives: a value or an exception. A handler file's result is
      awaited (src/Cli.js:170, 178); the instance's own function is not (src/Cli.js:195),
      so there the value is what the call returns, a promise included. */
  datatype Call = Returns(value: Value) | Fails(message: string)

  /** What `require` returns for a handler file: `null`/`undefined`, or an export that may
      itself be callable and whose function-valued properties are its methods. */
  datatype Module = NullExport | Exports(callable: Optional<Call>, methods: map<string, Call>)

  /** Loading a file that exists: it either throws or yields a module. */
  datatype Load = LoadFails(message: string) | Loaded(exported: Module)

  /** The file `<base>/src/commands/<segs joined by the path separator>.js`. */
  datatype FilePath = FilePath(base: string, segs: seq<string>)

  /** The files that exist under the command directories, and what loading each gives. */
  type FileSystem = map<FilePath, Load>

  /** What the manager logs. */
  datatype LogEntry =
    | Debug(name: string, description: Value)
    | Running(file: FilePath, methodName: Optional<string>)
    | Exception(message: string)
    | NoHandler(name: string)

  /** What happens when a loaded file is tried with a method name. */
  datatype Attempt = NoCall | Called(methodName: Optional<string>, call: Call) | Failed(message: string)

  /** The body of the `try` (src/Cli.js:165-184): a non-empty method name that names a
      function of the module wins; otherwise the module is called when it is a function;
      otherwise nothing runs. Loading errors and reading a method of `null` throw. */
  function TryModule(load: Load, methodName: string): (a: Attempt)
    ensures load.LoadFails? ==> a == Failed(load.message)
    ensures load.Loaded? && load.exported.Exports? && methodName != "" && methodName in load.exported.methods ==>
              a == Called(Some(methodName), load.exported.methods[methodName])
    ensures load.Loaded? && load.exported.Exports? && (methodName == "" || methodName !in load.exported.methods) ==>
              a == if load.exported.callable.Some? then Called(None, load.exported.callable.value) else NoCall
    ensures load.Loaded? && load.exported.NullExport? ==> (a.Failed? <==> methodName != "") && (a.NoCall? <==> methodName == "")
  {
    match load
    case LoadFails(m) => Failed(m)
    case Loaded(NullExport) =>
      if methodName != "" then Failed("TypeError: Cannot read properties of null (reading '" + methodName + "')")
      else NoCall
    case Loaded(Exports(callable, methods)) =>
      if methodName != "" && methodName in methods then Called(Some(methodName), methods[methodName])
      else if callable.Some? then Called(None, callable.value)
      else NoCall
  }

  /** The search result so far and the entries logged during the search. */
  datatype SearchState = SearchState(result: Value, log: seq<LogEntry>)

  /** One probe (src/Cli.js:162-189): a missing file changes nothing; a call stores what
      it returns; an exception is logged and leaves the result as it was. */
  function Step(fs: FileSystem, path: FilePath, methodName: string, st: SearchState): (r: SearchState)
    ensures path !in fs ==> r == st
  {
    if path !in fs then st
    else match TryModule(fs[path], methodName)
      case NoCall => st
      case Called(m, Returns(v)) => SearchState(v, st.log + [Running(path, m)])
      case Called(m, Fails(msg)) => SearchState(st.result, st.log + [Running(path, m), Exception(msg)])
      case Failed(msg) => SearchState(st.result, st.log + [Exception(msg)])
  }

  /** The method tried with the file made of the first `k` search segments: none for the
      longest path, else the segment popped last. */
  function CandidateMethod(segs: seq<string>, k: nat): string
    requires 1 <= k <= |segs|
  {
    if k == |segs| then "" else segs[k]
  }

  /** The loop of `save` (src/Cli.js:393-396) over the sorted names: each is set to the
      instance's field of that name. */
  method CollectEach(f: CliFields, sorted: seq<string>) returns (config: map<string, Value>)
    ensures config == Collect(f, Elems(sorted))
  {
    config := map[];
    var i := 0;
    while i < |sorted|
      invariant 0 <= i <= |sorted|
      invariant config == Collect(f, Elems(sorted[..i]))
    {
      var p := sorted[i];
      config := config[p := if p in CliFieldNames then f.Get(p) else Undefined];
      ElemsSnoc(sorted, i);
      i := i + 1;
    }
    assert sorted[..i] == sorted;
  }

  /** The search loop (src/Cli.js:160-191) from the pass that probes the first `k`
      segments, until a call returns exactly `true` or no segment is left. */
  function SearchAt(fs: FileSystem, base: string, segs: seq<string>, k: nat, st: SearchState): SearchState
    requires k <= |segs|
    decreases k
  {
    if st.result == Bool(true) || k == 0 then st
    else SearchAt(fs, base, segs, k - 1, Step(fs, FilePath(base, segs[..k]), CandidateMethod(segs, k), st))
  }

  /** The files whose existence the search checks, in order. */
  function Probes(fs: FileSystem, base: string, segs: seq<string>, k: nat, st: SearchState): seq<FilePath>
    requires k <= |segs|
    decreases k
  {
    if st.result == Bool(true) || k == 0 then []
    else [FilePath(base, segs[..k])]
         + Probes(fs, base, segs, k - 1, Step(fs, FilePath(base, segs[..k]), CandidateMethod(segs, k), st))
  }

  /** The candidate with the first `j` segments calls something that returns exactly `true`. */
  predicate Hit(fs: FileSystem, base: string, segs: seq<string>, j: nat)
    requires 1 <= j <= |segs|
  {
    var path := FilePath(base, segs[..j]);
    path in fs && TryModule(fs[path], CandidateMethod(segs, j)).Called?
    && TryModule(fs[path], CandidateMethod(segs, j)).call == Returns(Bool(true))
  }

  /** One probe leaves the result `true` exactly when its candidate is a hit. A file that
      fails to load, or whose call throws, is caught: the exception is logged after the
      entry of the call, if one was made, and the result stays as it was. */
  lemma StepHit(fs: FileSystem, base: string, segs: seq<string>, k: nat, st: SearchState)
    requires 1 <= k <= |segs| && st.result != Bool(true)
    ensures Step(fs, FilePath(base, segs[..k]), CandidateMethod(segs, k), st).result == Bool(true)
            <==> Hit(fs, base, segs, k)
    ensures var path := FilePath(base, segs[..k]);
            var r := Step(fs, path, CandidateMethod(segs, k), st);
            path in fs ==>
              var a := TryModule(fs[path], CandidateMethod(segs, k));
              (a.Failed? ==> r == SearchState(st.result, st.log + [Exception(a.message)]))
              && (a.Called? && a.call.Fails? ==>
                    r == SearchState(st.result, st.log + [Running(path, a.methodName), Exception(a.call.message)]))
  {
  }

  /** The search ends with `true` exactly when some candidate still to be probed is a hit. */
  lemma {:induction false} SearchTrueIff(fs: FileSystem, base: string, segs: seq<string>, k: nat, st: SearchState)
    requires k <= |segs|
    ensures SearchAt(fs, base, segs, k, st).result == Bool(true)
            <==> st.result == Bool(true) || exists j :: 1 <= j <= k && Hit(fs, base, segs, j)
    decreases k
  {
    if st.result != Bool(true) && k > 0 {
      var next := Step(fs, FilePath(base, segs[..k]), CandidateMethod(segs, k), st);
      StepHit(fs, base, segs, k, st);
      SearchTrueIff(fs, base, segs, k - 1, next);
      if next.result != Bool(true) {
        assert (exists j :: 1 <= j <= k && Hit(fs, base, segs, j)) <==> exists j :: 1 <= j <= k - 1 && Hit(fs, base, segs, j);
      }
    }
  }

  /** The search probes the candidates from the longest path down, at most one pass per
      segment. */
  lemma {:induction false} ProbeShape(fs: FileSystem, base: string, segs: seq<string>, k: nat, st: SearchState)
    requires k <= |segs|
    ensures var p := Probes(fs, base, segs, k, st);
            |p| <= k && forall i :: 0 <= i < |p| ==> p[i] == FilePath(base, segs[..k - i])
    decreases k
  {
    if st.result != Bool(true) && k > 0 {
      ProbeShape(fs, base, segs, k - 1, Step(fs, FilePath(base, segs[..k]), CandidateMethod(segs, k), st));
    }
  }

  /** The search stops right after the first hit: no probe but the last is a hit, and a
      search that ends early ends on a hit. */
  lemma {:induction false} ProbeStops(fs: FileSystem, base: string, segs: seq<string>, k: nat, st: SearchState)
    requires k <= |segs|
    ensures var p := Probes(fs, base, segs, k, st);
            |p| <= k
            && (forall j :: k - |p| + 2 <= j <= k ==> !Hit(fs, base, segs, j))
            && (st.result != Bool(true) && |p| < k ==> p != [] && Hit(fs, base, segs, k - |p| + 1))
    decreases k
  {
    if st.result != Bool(true) && k > 0 {
      var next := Step(fs, FilePath(base, segs[..k]), CandidateMethod(segs, k), st);
      StepHit(fs, base, segs, k, st);
      ProbeStops(fs, base, segs, k - 1, next);
    }
  }

  /** The files probed are pairwise different. */
  lemma ProbesDistinct(fs: FileSystem, base: string, segs: seq<string>, k: nat, st: SearchState)
    requires k <= |segs|
    ensures var p := Probes(fs, base, segs, k, st);
            forall i, j :: 0 <= i < j < |p| ==> p[i] != p[j]
  {
    ProbeShape(fs, base, segs, k, st);
    var p := Probes(fs, base, segs, k, st);
    forall i, j | 0 <= i < j < |p| ensures p[i] != p[j] {
      assert |p[i].segs| == k - i && |p[j].segs| == k - j;
    }
  }

  /** For `a:b:c` the candidates are `a/b/c.js` called directly, `a/b.js` with `.c`, and
      `a.js` with `.b`. */
  lemma CandidatesOfThree(a: string, b: string, c: string)
    ensures var s := [a, b, c];
            s[..3] == [a, b, c] && CandidateMethod(s, 3) == ""
            && s[..2] == [a, b] && CandidateMethod(s, 2) == c
            && s[..1] == [a] && CandidateMethod(s, 1) == b
  {
  }

  /** The search only appends to the log, and never a "no handler" entry. */
  lemma {:induction false} SearchLog(fs: FileSystem, base: string, segs: seq<string>, k: nat, st: SearchState)
    requires k <= |segs|
    ensures var r := SearchAt(fs, base, segs, k, st);
            st.log <= r.log && forall i :: |st.log| <= i < |r.log| ==> !r.log[i].NoHandler?
    decreases k
  {
    if st.result != Bool(true) && k > 0 {
      SearchLog(fs, base, segs, k - 1, Step(fs, FilePath(base, segs[..k]), CandidateMethod(segs, k), st));
    }
  }

  /** `resolveDir(directory)` (src/Cli.js:331-359): `path.isAbsolute` rejects anything
      that is not a string; a string is located through `locate`, which stands for module
      resolution, the working directory and the search for `package.json`, and yields
      `''` when nothing is found. */
  function ResolveDir(directory: Value, locate: string -> string): (r: Result<string>)
    ensures r.Ok? <==> directory.Str?
  {
    if directory.Str? then Ok(locate(directory.s))
    else Throw("TypeError [ERR_INVALID_ARG_TYPE]: The \"path\" argument must be of type string. Received " + ToJsString(directory))
  }

  /** `resolved || this.rootDir`, which `path.join` requires to be a string. */
  function BaseDir(resolved: string, rootDir: Value): (r: Result<string>)
  {
    if resolved != "" then Ok(resolved)
    else if rootDir.Str? then Ok(rootDir.s)
    else Throw("TypeError [ERR_INVALID_ARG_TYPE]: The \"path\" argument must be of type string. Received " + ToJsString(rootDir))
  }

  /** The search root and whether the first segment names a registered namespace, as
      written (src/Cli.js:153-156): the namespace's directory is resolved before the
      `in` test, so an unregistered one reaches `resolveDir` as `undefined`. */
  function SearchRootAsWritten(dirs: Value, seg0: string, rootDir: Value, locate: string -> string): Result<(string, bool)>
  {
    match GetProp(dirs, seg0)
    case Throw(m) => Throw(m)
    case Ok(v) =>
      match ResolveDir(v, locate)
      case Throw(m) => Throw(m)
      case Ok(resolved) =>
        match BaseDir(resolved, rootDir)
        case Throw(m) => Throw(m)
        case Ok(base) =>
          match HasProp(dirs, seg0)
          case Throw(m) => Throw(m)
          case Ok(registered) => Ok((base, registered))
  }

  /** The search root as intended: a registered namespace is resolved to its directory,
      anything else searches under the project root. */
  function SearchRoot(dirs: Value, seg0: string, rootDir: Value, locate: string -> string): (r: Result<(string, bool)>)
    ensures dirs.Obj? && seg0 !in dirs.props && rootDir.Str? ==> r == Ok((rootDir.s, false))
    ensures dirs.Obj? && seg0 in dirs.props && dirs.props[seg0].Str? && rootDir.Str? ==>
              r == Ok((if locate(dirs.props[seg0].s) != "" then locate(dirs.props[seg0].s) else rootDir.s, true))
  {
    match HasProp(dirs, seg0)
    case Throw(m) => Throw(m)
    case Ok(registered) =>
      if !registered then
        match BaseDir("", rootDir)
        case Throw(m) => Throw(m)
        case Ok(base) => Ok((base, false))
      else
        match GetProp(dirs, seg0)
        case Throw(m) => Throw(m)
        case Ok(v) =>
          match ResolveDir(v, locate)
          case Throw(m) => Throw(m)
          case Ok(resolved) =>
            match BaseDir(resolved, rootDir)
            case Throw(m) => Throw(m)
            case Ok(base) => Ok((base, true))
  }

  /** As written, a namespaced command whose namespace is not registered throws before
      any file is probed, so the fallback to the project root never applies; the intended
      root for it is the project root. Both agree on registered string directories. */
  lemma UnregisteredNamespaceThrows(dirs: map<string, Value>, seg0: string, rootDir: string, locate: string -> string)
    requires seg0 !in dirs
    ensures SearchRootAsWritten(Object(dirs), seg0, Str(rootDir), locate).Throw?
    ensures SearchRoot(Object(dirs), seg0, Str(rootDir), locate) == Ok((rootDir, false))
  {
  }

  lemma RegisteredNamespaceAgrees(dirs: map<string, Value>, seg0: string, rootDir: string, locate: string -> string)
    requires seg0 in dirs && dirs[seg0].Str?
    ensures SearchRootAsWritten(Object(dirs), seg0, Str(rootDir), locate) == SearchRoot(Object(dirs), seg0, Str(rootDir), locate)
  {
  }

  /** How a call of `handler` ends: the final search result, the entries it logs and
      whether it throws. */
  datatype HandlerOutcome = HandlerOutcome(result: Value, entries: seq<LogEntry>, completion: Completion)

  /** Whether a command name goes through the file search: its second segment is truthy. */
  predicate Namespaced(parts: seq<string>)
  {
    |parts| > 1 && parts[1] != ""
  }

  /** The segments the search walks: the name's segments without a registered namespace. */
  function SearchSegments(parts: seq<string>, registered: bool): seq<string>
    requires |parts| >= 1
  {
    if registered then parts[1..] else parts
  }

  /** The final check (src/Cli.js:197-200). */
  function Finish(name: string, result: Value, entries: seq<LogEntry>): HandlerOutcome
  {
    HandlerOutcome(result, entries + (if result != Bool(true) then [NoHandler(name)] else []), Normal)
  }

  /** `handler(command, argv)` (src/Cli.js:144-201) once the search root of a namespaced
      name is known as `root`: the debug entry, then either the file search under the root
      or the instance's own function of that name, then the final check. `cliMethods` are
      the functions the instance answers to by name. */
  function HandlerWith(name: string, description: Value, root: Result<(string, bool)>, fs: FileSystem,
                       cliMethods: map<string, Call>): HandlerOutcome
  {
    var parts := Split(name, ':');
    var debug := [Debug(name, description)];
    if Namespaced(parts) then
      match root
      case Throw(m) => HandlerOutcome(Bool(false), debug, Thrown(m))
      case Ok((base, registered)) =>
        var segs := SearchSegments(parts, registered);
        var st := SearchAt(fs, base, segs, |segs|, SearchState(Bool(false), debug));
        Finish(name, st.result, st.log)
    else if name in cliMethods then
      match cliMethods[name]
      case Returns(v) => Finish(name, v, debug)
      case Fails(m) => HandlerOutcome(Bool(false), debug, Thrown(m))
    else Finish(name, Bool(false), debug)
  }

  /** `handler` as written: the search root of src/Cli.js:153-156. */
  function HandlerRun(name: string, description: Value, dirs: Value, rootDir: Value, fs: FileSystem,
                      locate: string -> string, cliMethods: map<string, Call>): HandlerOutcome
  {
    HandlerWith(name, description, SearchRootAsWritten(dirs, Split(name, ':')[0], rootDir, locate), fs, cliMethods)
  }

  /** `handler` with the search root as intended. */
  function HandlerRunIntended(name: string, description: Value, dirs: Value, rootDir: Value, fs: FileSystem,
                              locate: string -> string, cliMethods: map<string, Call>): HandlerOutcome
  {
    HandlerWith(name, description, SearchRoot(dirs, Split(name, ':')[0], rootDir, locate), fs, cliMethods)
  }

  /** As written, `handler` rejects a namespaced name whose namespace is not registered,
      before any file is probed; as intended, it searches under the project root. */
  lemma UnregisteredNamespaceRejects(name: string, description: Value, dirs: map<string, Value>, rootDir: string,
                                     fs: FileSystem, locate: string -> string, cliMethods: map<string, Call>)
    requires Namespaced(Split(name, ':')) && Split(name, ':')[0] !in dirs
    ensures HandlerRun(name, description, Object(dirs), Str(rootDir), fs, locate, cliMethods).completion.Thrown?
    ensures HandlerRun(name, description, Object(dirs), Str(rootDir), fs, locate, cliMethods).entries == [Debug(name, description)]
    ensures HandlerRunIntended(name, description, Object(dirs), Str(rootDir), fs, locate, cliMethods)
            == HandlerWith(name, description, Ok((rootDir, false)), fs, cliMethods)
  {
    UnregisteredNamespaceThrows(dirs, Split(name, ':')[0], rootDir, locate);
  }

  /** How many "no handler" entries a log holds. */
  function NoHandlerCount(log: seq<LogEntry>): nat
  {
    if log == [] then 0 else (if log[|log| - 1].NoHandler? then 1 else 0) + NoHandlerCount(log[..|log| - 1])
  }

  lemma {:induction false} NoHandlerCountAppend(a: seq<LogEntry>, b: seq<LogEntry>)
    ensures NoHandlerCount(a + b) == NoHandlerCount(a) + NoHandlerCount(b)
    decreases |b|
  {
    if b == [] {
      assert a + b == a;
    } else {
      assert (a + b)[..|a + b| - 1] == a + b[..|b| - 1];
      assert (a + b)[|a + b| - 1] == b[|b| - 1];
      NoHandlerCountAppend(a, b[..|b| - 1]);
    }
  }

  lemma {:induction false} NoHandlerFree(log: seq<LogEntry>)
    requires forall i :: 0 <= i < |log| ==> !log[i].NoHandler?
    ensures NoHandlerCount(log) == 0
  {
    if log != [] {
      NoHandlerFree(log[..|log| - 1]);
    }
  }

  /** The final check adds one "no handler" entry exactly when the result is not `true`. */
  lemma FinishCount(name: string, result: Value, before: seq<LogEntry>)
    requires forall i :: 0 <= i < |before| ==> !before[i].NoHandler?
    ensures var o := Finish(name, result, before);
            NoHandlerCount(o.entries) == (if result == Bool(true) then 0 else 1)
            && (result != Bool(true) ==> o.entries[|o.entries| - 1] == NoHandler(name))
  {
    NoHandlerFree(before);
    var tail: seq<LogEntry> := if result != Bool(true) then [NoHandler(name)] else [];
    NoHandlerCountAppend(before, tail);
    assert NoHandlerCount([NoHandler(name)]) == 1 by {
      assert [NoHandler(name)][..0] == [];
    }
  }

  /** A handler call that ends normally logs exactly one "no handler" error when its result
      is not exactly `true`, and none otherwise, whatever the search root. */
  lemma HandlerLogsNoHandlerOnce(name: string, description: Value, root: Result<(string, bool)>, fs: FileSystem,
                                 cliMethods: map<string, Call>)
    ensures var o := HandlerWith(name, description, root, fs, cliMethods);
            o.completion.Normal? ==>
              NoHandlerCount(o.entries) == (if o.result == Bool(true) then 0 else 1)
              && (o.result != Bool(true) ==> o.entries[|o.entries| - 1] == NoHandler(name))
  {
    var o := HandlerWith(name, description, root, fs, cliMethods);
    var parts := Split(name, ':');
    var debug := [Debug(name, description)];
    if o.completion.Normal? {
      if Namespaced(parts) {
        var segs := SearchSegments(parts, root.value.1);
        var st0 := SearchState(Bool(false), debug);
        var st := SearchAt(fs, root.value.0, segs, |segs|, st0);
        SearchLog(fs, root.value.0, segs, |segs|, st0);
        assert o == Finish(name, st.result, st.log);
        FinishCount(name, st.result, st.log);
      } else {
        FinishCount(name, o.result, debug);
      }
    }
  }

  /** A name without a truthy second segment never reaches the file system nor the search
      root: it answers with the same-named function of the instance, if there is one. */
  lemma PlainNameSkipsSearch(name: string, description: Value, root: Result<(string, bool)>, fs: FileSystem,
                             cliMethods: map<string, Call>)
    requires !Namespaced(Split(name, ':'))
    ensures var o := HandlerWith(name, description, root, fs, cliMethods);
            HandlerWith(name, description, Throw(""), map[], cliMethods) == o
            && (name in cliMethods && cliMethods[name].Returns? ==> o.result == cliMethods[name].value)
            && (name in cliMethods && cliMethods[name].Fails? ==> o.completion == Thrown(cliMethods[name].message))
            && (name !in cliMethods ==> o.result == Bool(false) && o.completion.Normal?)
  {
  }

  /** Once its search root is found, a namespaced command ends with `true` exactly when one
      of its candidates, probed from the longest path down, calls something that returns
      exactly `true`; a failing file never makes the handler throw. */
  lemma NamespacedResult(name: string, description: Value, root: Result<(string, bool)>, fs: FileSystem,
                         cliMethods: map<string, Call>)
    requires Namespaced(Split(name, ':')) && root.Ok?
    ensures var segs := SearchSegments(Split(name, ':'), root.value.1);
            var o := HandlerWith(name, description, root, fs, cliMethods);
            o.completion.Normal?
            && (o.result == Bool(true) <==> exists j :: 1 <= j <= |segs| && Hit(fs, root.value.0, segs, j))
  {
    var parts := Split(name, ':');
    var segs := SearchSegments(parts, root.value.1);
    var start := SearchState(Bool(false), [Debug(name, description)]);
    var st := SearchAt(fs, root.value.0, segs, |segs|, start);
    assert HandlerWith(name, description, root, fs, cliMethods) == Finish(name, st.result, st.log);
    SearchTrueIff(fs, root.value.0, segs, |segs|, start);
  }

  /** The first segment is left out of every probed path exactly when it names a
      registered namespace. */
  lemma NamespaceLeftOut(parts: seq<string>, registered: bool, fs: FileSystem, base: string, st: SearchState)
    requires |parts| >= 2
    ensures var segs := SearchSegments(parts, registered);
            var p := Probes(fs, base, segs, |segs|, st);
            forall i :: 0 <= i < |p| ==>
              p[i].segs != [] && p[i].segs <= (if registered then parts[1..] else parts)
  {
    var segs := SearchSegments(parts, registered);
    ProbeShape(fs, base, segs, |segs|, st);
  }

  // ---- Configuration --------------------------------------------------------------

  /** The data fields of an instance (src/Cli.js:62-100). */
  datatype CliFields = CliFields(command: Value, commands: Value, directories: Value, rootDir: Value, showStack: Value, tpl: Value)
  {
    function Get(field: string): Value
      requires field in CliFieldNames
    {
      match field
      case "command" => command
      case "commands" => commands
      case "directories" => directories
      case "rootDir" => rootDir
      case "showStack" => showStack
      case "tpl" => tpl
    }

    function With(field: string, v: Value): (f: CliFields)
      requires field in CliFieldNames
      ensures f.Get(field) == v
      ensures forall g :: g in CliFieldNames && g != field ==> f.Get(g) == Get(g)
    {
      match field
      case "command" => this.(command := v)
      case "commands" => this.(commands := v)
      case "directories" => this.(directories := v)
      case "rootDir" => this.(rootDir := v)
      case "showStack" => this.(showStack := v)
      case "tpl" => this.(tpl := v)
    }
  }

  const CliFieldNames: set<string> := {"command", "commands", "directories", "rootDir", "showStack", "tpl"}

  /** The initial fields for a project root. */
  function InitialFields(rootDir: string): CliFields
  {
    CliFields(Null, Object(map[]), Object(map[]), Str(rootDir), Bool(true), Null)
  }

  /** `this[key]` is copied over when it holds a defined value that is not a function. */
  predicate Copyable(v: Value)
  {
    v != Undefined && !v.Fn?
  }

  function CopyConfigKey(f: CliFields, props: map<string, Value>, k: string): CliFields
    requires k in props
  {
    if k in CliFieldNames && Copyable(f.Get(k)) then f.With(k, props[k]) else f
  }

  /** The copy loop (src/Cli.js:301-308) over `keys`. */
  function CopyConfigKeys(f: CliFields, props: map<string, Value>, keys: seq<string>): CliFields
    requires forall i :: 0 <= i < |keys| ==> keys[i] in props
  {
    if keys == [] then f else CopyConfigKey(CopyConfigKeys(f, props, keys[..|keys| - 1]), props, keys[|keys| - 1])
  }

  lemma CopyConfigKeysStep(f: CliFields, props: map<string, Value>, keys: seq<string>, i: nat)
    requires forall j :: 0 <= j < |keys| ==> keys[j] in props
    requires i < |keys|
    ensures CopyConfigKeys(f, props, keys[..i + 1]) == CopyConfigKey(CopyConfigKeys(f, props, keys[..i]), props, keys[i])
  {
    assert keys[..i + 1][..i] == keys[..i];
  }

  /** What the copy loop leaves: every field named in the configuration whose value was
      defined and not a function takes the configured value; every other key is ignored. */
  function ApplyConfig(f: CliFields, props: map<string, Value>): (r: CliFields)
    ensures forall g :: g in CliFieldNames ==>
      r.Get(g) == if g in props && Copyable(f.Get(g)) then props[g] else f.Get(g)
  {
    var pick := (g: string) requires g in CliFieldNames =>
      if g in props && Copyable(f.Get(g)) then props[g] else f.Get(g);
    CliFields(pick("command"), pick("commands"), pick("directories"), pick("rootDir"), pick("showStack"), pick("tpl"))
  }

  lemma {:induction false} CopyConfigKeysField(f: CliFields, props: map<string, Value>, keys: seq<string>, g: string)
    requires forall i :: 0 <= i < |keys| ==> keys[i] in props
    requires forall i, j :: 0 <= i < j < |keys| ==> keys[i] != keys[j]
    requires g in CliFieldNames
    ensures CopyConfigKeys(f, props, keys).Get(g) == if g in keys && Copyable(f.Get(g)) then props[g] else f.Get(g)
  {
    if keys != [] {
      var init := keys[..|keys| - 1];
      CopyConfigKeysField(f, props, init, g);
      assert g in keys <==> g in init || g == keys[|keys| - 1];
      if g == keys[|keys| - 1] {
        assert g !in init;
      }
    }
  }

  /** Copying the keys one at a time in ascending order is `ApplyConfig`. */
  lemma CopyConfigSorted(f: CliFields, props: map<string, Value>)
    ensures CopyConfigKeys(f, props, SortedProps(props)) == ApplyConfig(f, props)
  {
    var keys := SortedProps(props);
    var r := CopyConfigKeys(f, props, keys);
    forall g | g in CliFieldNames ensures r.Get(g) == ApplyConfig(f, props).Get(g) {
      CopyConfigKeysField(f, props, keys, g);
    }
    assert r.command == r.Get("command") && r.commands == r.Get("commands") && r.directories == r.Get("directories");
    assert r.rootDir == r.Get("rootDir") && r.showStack == r.Get("showStack") && r.tpl == r.Get("tpl");
  }

  /** What reading the configuration file gives: missing, unreadable or unparsable (with
      the exception), or the parsed JSON value. */
  datatype ConfigFile = Missing | Unreadable(message: string) | Parsed(json: Value)

  /** `loadConfig()` (src/Cli.js:236-252): `undefined` unless the file parses, and `{}` for
      a falsy parsed value. */
  function LoadedConfig(file: ConfigFile): (r: Value)
    ensures file.Parsed? && Truthy(file.json) ==> r == file.json
    ensures file.Parsed? && !Truthy(file.json) ==> r == Object(map[])
    ensures !file.Parsed? ==> r == Undefined
  {
    match file
    case Missing => Undefined
    case Unreadable(_) => Undefined
    case Parsed(v) => if Truthy(v) then v else Object(map[])
  }

  /** The fields after `_parseConfig` has applied the configuration file. */
  function ConfiguredFields(f: CliFields, file: ConfigFile): CliFields
  {
    var config := LoadedConfig(file);
    if config.Obj? then ApplyConfig(f, config.props) else f
  }

  /** The commands every instance registers first: `update`, a method of the instance. */
  const BuiltinCommands: Value := Object(map["update" := Str("Actualiza el archivo de configuración")])

  /** The name of the configuration file in the project root. */
  const ConfigFileName := ".jfcli"

  /** What `save` writes: the value serialised as JSON into `.jfcli` in `dir`. */
  datatype SaveRequest = SaveRequest(dir: Value, file: string, content: Value)

  /** The fields `save` collects for a list of property names: each name is looked up as
      its string form; names that are not data fields read as `undefined` (methods are
      functions, which `JSON.stringify` leaves out like `undefined`). */
  function Collect(f: CliFields, names: set<string>): (r: map<string, Value>)
    ensures r.Keys == names
    ensures forall k :: k in names ==> r[k] == if k in CliFieldNames then f.Get(k) else Undefined
  {
    map k | k in names :: if k in CliFieldNames then f.Get(k) else Undefined
  }

  /** The elements of a list, as a set. */
  function Elems(xs: seq<string>): set<string>
  {
    set i | 0 <= i < |xs| :: xs[i]
  }

  lemma ElemsSnoc(xs: seq<string>, i: nat)
    requires i < |xs|
    ensures Elems(xs[..i + 1]) == Elems(xs[..i]) + {xs[i]}
  {
    var a := xs[..i + 1];
    assert forall j :: 0 <= j < i ==> a[j] == xs[..i][j];
    assert a[i] == xs[i];
    forall x | x in Elems(a) ensures x in Elems(xs[..i]) + {xs[i]} {
      var j :| 0 <= j < |a| && a[j] == x;
      if j < i { assert xs[..i][j] == x; }
    }
  }

  /** Two lists with the same elements, counted with multiplicity, have the same set of elements. */
  lemma SameElems(a: seq<string>, b: seq<string>)
    requires multiset(a) == multiset(b)
    ensures Elems(a) == Elems(b)
  {
    forall x | x in Elems(a) ensures x in Elems(b) {
      var i :| 0 <= i < |a| && a[i] == x;
      assert x in multiset(a);
      assert x in multiset(b);
      var j :| 0 <= j < |b| && b[j] == x;
    }
    forall x | x in Elems(b) ensures x in Elems(a) {
      var j :| 0 <= j < |b| && b[j] == x;
      assert x in multiset(b);
      assert x in multiset(a);
      var i :| 0 <= i < |a| && a[i] == x;
    }
  }

  /** The search loop (src/Cli.js:160-191): the segments are popped one at a time, each
      shorter path probed with the segment popped last as the method to call, until a
      call returns exactly `true`. */
  method Search(fs: FileSystem, base: string, all: seq<string>, start: SearchState) returns (st: SearchState)
    ensures st == SearchAt(fs, base, all, |all|, start)
  {
    var result := start.result;
    var entries := start.log;
    var segs := all;
    var methodName := "";
    while result != Bool(true) && |segs| > 0
      invariant |segs| <= |all| && segs == all[..|segs|]
      invariant |segs| > 0 ==> methodName == CandidateMethod(all, |segs|)
      invariant SearchAt(fs, base, all, |segs|, SearchState(result, entries)) == SearchAt(fs, base, all, |all|, start)
      decreases |segs|
    {
      var path := FilePath(base, segs);
      if path in fs {
        var attempt := TryModule(fs[path], methodName);
        match attempt {
          case NoCall =>
          case Called(m, Returns(v)) =>
            entries := entries + [Running(path, m)];
            result := v;
          case Called(m, Fails(msg)) =>
            entries := entries + [Running(path, m), Exception(msg)];
          case Failed(msg) =>
            entries := entries + [Exception(msg)];
        }
      }
      methodName := segs[|segs| - 1];
      segs := segs[..|segs| - 1];
      assert all[..|segs|] == all[..|segs| + 1][..|segs|];
    }
    st := SearchState(result, entries);
  }

  /** The command-line manager. */
  class Cli {
    var command: Value
    var commands: Value
    var directories: Value
    var rootDir: Value
    var showStack: Value
    var tpl: Value
    var log: seq<LogEntry>
    const registry: Registry

    function Fields(): CliFields
      reads this
    {
      CliFields(command, commands, directories, rootDir, showStack, tpl)
    }

    /** The field initialisers (src/Cli.js:62-100); `rootDir` is the given root or, when
        that is empty, the directory holding the main module's `package.json`. */
    constructor (root: string, mainRoot: string, registry: Registry)
      ensures Fields() == InitialFields(if root != "" then root else mainRoot)
      ensures log == [] && this.registry == registry
    {
      command := Null;
      commands := Object(map[]);
      directories := Object(map[]);
      rootDir := Str(if root != "" then root else mainRoot);
      showStack := Bool(true);
      tpl := Null;
      log := [];
      this.registry := registry;
    }

    method SetField(field: string, v: Value)
      requires field in CliFieldNames
      modifies this
      ensures Fields() == old(Fields()).With(field, v)
      ensures log == old(log)
    {
      match field
      case "command" => command := v;
      case "commands" => commands := v;
      case "directories" => directories := v;
      case "rootDir" => rootDir := v;
      case "showStack" => showStack := v;
      case "tpl" => tpl := v;
    }

    /** The rest of the constructor (src/Cli.js:104-109): registers the built-in `update`
        command, then applies the configuration file. */
    method Start(file: ConfigFile) returns (c: Completion)
      modifies this, registry
      ensures var first := RegisterConfig(old(registry.commands), BuiltinCommands, "");
              first.completion.Thrown? ==>
                c == first.completion && registry.commands == first.state && Fields() == old(Fields()) && log == old(log)
      ensures var first := RegisterConfig(old(registry.commands), BuiltinCommands, "");
              first.completion.Normal? ==>
                Fields() == ConfiguredFields(old(Fields()), file)
                && log == old(log) + (if file.Unreadable? then [Exception(file.message)] else [])
                && (Truthy(LoadedConfig(file)) ==>
                      var r := RegisterConfig(first.state, ConfiguredFields(old(Fields()), file).commands, "");
                      registry.commands == r.state && c == r.completion)
                && (!Truthy(LoadedConfig(file)) ==> registry.commands == first.state && c == Normal)
    {
      var r := registry.Parse(BuiltinCommands, "");
      if r.Throw? {
        return Thrown(r.message);
      }
      c := ParseConfig(file);
    }

    /** `loadConfig()`: reading or parsing errors are logged. */
    method LoadConfig(file: ConfigFile) returns (config: Value)
      modifies this
      ensures config == LoadedConfig(file)
      ensures log == old(log) + (if file.Unreadable? then [Exception(file.message)] else [])
      ensures Fields() == old(Fields())
    {
      config := Undefined;
      match file {
        case Missing =>
        case Unreadable(m) =>
          log := log + [Exception(m)];
        case Parsed(v) =>
          config := if Truthy(v) then v else Object(map[]);
      }
    }

    /** The copy loop of `_parseConfig` (src/Cli.js:301-308). */
    method ApplyConfigKeys(props: map<string, Value>)
      modifies this
      ensures Fields() == CopyConfigKeys(old(Fields()), props, SortedProps(props))
      ensures log == old(log)
    {
      var keys := SortedProps(props);
      var i := 0;
      while i < |keys|
        invariant 0 <= i <= |keys|
        invariant Fields() == CopyConfigKeys(old(Fields()), props, keys[..i])
        invariant log == old(log)
      {
        CopyConfigKeysStep(old(Fields()), props, keys, i);
        ApplyConfigKey(props, keys[i]);
        i := i + 1;
      }
      assert keys[..i] == keys;
    }

    /** One turn of the copy loop: a known field holding a defined, non-function value
        takes the configured one. */
    method ApplyConfigKey(props: map<string, Value>, k: string)
      requires k in props
      modifies this
      ensures Fields() == CopyConfigKey(old(Fields()), props, k)
      ensures log == old(log)
    {
      if k in CliFieldNames && Copyable(Fields().Get(k)) {
        SetField(k, props[k]);
      }
    }

    /** `_parseConfig()` (src/Cli.js:293-314): copies the configured values onto the
        instance fields that hold a defined, non-function value, then registers the
        resulting `commands`. */
    method ParseConfig(file: ConfigFile) returns (c: Completion)
      modifies this, registry
      ensures Fields() == ConfiguredFields(old(Fields()), file)
      ensures log == old(log) + (if file.Unreadable? then [Exception(file.message)] else [])
      ensures Truthy(LoadedConfig(file)) ==>
                var r := RegisterConfig(old(registry.commands), ConfiguredFields(old(Fields()), file).commands, "");
                registry.commands == r.state && c == r.completion
      ensures !Truthy(LoadedConfig(file)) ==> registry.commands == old(registry.commands) && c == Normal
    {
      var config := LoadConfig(file);
      c := Normal;
      if !Truthy(config) {
        return;
      }
      if config.Obj? {
        ApplyConfigKeys(config.props);
        CopyConfigSorted(old(Fields()), config.props);
      }
      var r := registry.Parse(commands, "");
      c := if r.Throw? then Thrown(r.message) else Normal;
    }

    /** `save(properties)` (src/Cli.js:388-400): a list of property names is turned into an
        object of the instance's values under those names; anything else is written as
        given. Nothing on the instance changes. */
    method Save(properties: Value) returns (w: SaveRequest)
      ensures var names := if properties == Undefined then ["commands", "directories"]
                           else if properties.Arr? then seq(|properties.elems|, i requires 0 <= i < |properties.elems| => ToJsString(properties.elems[i]))
                           else [];
              w.dir == rootDir && w.file == ConfigFileName
              && w.content == if properties == Undefined || properties.Arr?
                              then Object(Collect(Fields(), Elems(names)))
                              else properties
    {
      var list: seq<string>;
      if properties == Undefined {
        list := ["commands", "directories"];
      } else if properties.Arr? {
        list := seq(|properties.elems|, i requires 0 <= i < |properties.elems| => ToJsString(properties.elems[i]));
      } else {
        return SaveRequest(rootDir, ConfigFileName, properties);
      }
      var sorted := Sort(list);
      var config := CollectEach(Fields(), sorted);
      SameElems(list, sorted);
      w := SaveRequest(rootDir, ConfigFileName, Object(config));
    }

    /** `handler(command, argv)` (src/Cli.js:144-201), with the search root as written:
        logs the command, remembers it, then either searches the command files or calls
        the instance's own function of that name, and logs an error unless the result is
        exactly `true`. */
    method Handler(cmd: CommandData, fs: FileSystem, locate: string -> string, cliMethods: map<string, Call>)
      returns (c: Completion)
      modifies this
      ensures var o := HandlerRun(cmd.name, cmd.description, old(directories), old(rootDir), fs, locate, cliMethods);
              c == o.completion && log == old(log) + o.entries
              && command == CommandValue(cmd)
              && commands == old(commands) && directories == old(directories) && rootDir == old(rootDir)
              && showStack == old(showStack) && tpl == old(tpl)
    {
      var name := cmd.name;
      var entries := [Debug(name, cmd.description)];
      command := CommandValue(cmd);
      var parts := Split(name, ':');
      var result := Bool(false);
      if |parts| > 1 && parts[1] != "" {
        var root := SearchRootAsWritten(directories, parts[0], rootDir, locate);
        ghost var o := HandlerWith(name, cmd.description, root, fs, cliMethods);
        if root.Throw? {
          assert o == HandlerOutcome(Bool(false), entries, Thrown(root.message));
          log := log + entries;
          return Thrown(root.message);
        }
        var base := root.value.0;
        var all := SearchSegments(parts, root.value.1);
        var st := Search(fs, base, all, SearchState(result, entries));
        assert o == Finish(name, st.result, st.log);
        result := st.result;
        entries := st.log;
      } else if name in cliMethods {
        match cliMethods[name] {
          case Returns(v) =>
            result := v;
          case Fails(m) =>
            log := log + entries;
            return Thrown(m);
        }
      }
      if result != Bool(true) {
        entries := entries + [NoHandler(name)];
      }
      log := log + entries;
      c := Normal;
    }
  }
}
