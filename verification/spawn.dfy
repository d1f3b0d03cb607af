/** The background-process runner of src/Spawn.js: a one-shot guard that settles the
    promise `run` returns at most once with a rejection, the line splitting of the
    process output, and the normalisation of `run`'s arguments. The child process
    itself, its streams and the promise are not modelled: the events the process
    emits are calls of `OnError` and `OnExit`, and settling the promise is recorded
    as an entry of `settled`. */
module SpawnModel {
  import opened Text
  import opened JsValue

  /** A call of the `resolve` or `reject` function of the promise. */
  datatype Settle = Resolve | Reject(message: string)

  /** The colour `chalk` paints a logged line in. */
  datatype Colour = Red | Yellow

  /** One `cli.log(level, '%s', colour(line))` call. */
  datatype LogLine = LogLine(level: string, colour: Colour, line: string)

  /** The process-independent part of `spawn(cmd, args, options)`, and whether the
      output streams are read (`stdio: 'pipe'`), by the caller's logger or by `_log`. */
  datatype Listener = OwnLog | Logger(callback: Value)
  datatype SpawnCall = SpawnCall(cmd: string, args: seq<Value>, options: map<string, Value>, output: Optional<Listener>)

  /** The settlement history a runner can have: nothing after a rejection, and at
      most one rejection, which `isRejected` records. */
  predicate SettledOnce(settled: seq<Settle>, isRejected: bool)
  {
    (isRejected <==> exists i :: 0 <= i < |settled| && settled[i].Reject?)
    && forall i :: 0 <= i < |settled| && settled[i].Reject? ==> i == |settled| - 1
  }

  lemma SettleReject(settled: seq<Settle>, message: string)
    requires SettledOnce(settled, false)
    ensures SettledOnce(settled + [Reject(message)], true)
  {
    var s := settled + [Reject(message)];
    assert s[|s| - 1].Reject?;
    forall i | 0 <= i < |settled| ensures !s[i].Reject? {
      assert s[i] == settled[i];
    }
  }

  lemma SettleResolve(settled: seq<Settle>)
    requires SettledOnce(settled, false)
    ensures SettledOnce(settled + [Resolve], false)
  {
    var s := settled + [Resolve];
    forall i | 0 <= i < |settled| ensures !s[i].Reject? {
      assert s[i] == settled[i];
    }
  }

  /** The value of the promise: the first settle call wins. */
  function PromiseState(settled: seq<Settle>): Optional<Settle>
  {
    if settled == [] then None else Some(settled[0])
  }

  /** A rejected runner's promise is settled, and its value is the rejection exactly when
      that rejection was the first settle call. */
  lemma RejectedRunnerRejects(settled: seq<Settle>)
    requires SettledOnce(settled, true)
    ensures PromiseState(settled).Some?
    ensures PromiseState(settled).value.Reject? <==> |settled| == 1
  {
    var i :| 0 <= i < |settled| && settled[i].Reject?;
    assert i == |settled| - 1;
  }

  /** The entries `_log` writes for the pieces of the output: one per piece that is not
      blank once trimmed, red for the `error` level and yellow otherwise. */
  function LogEntries(level: string, pieces: seq<string>): seq<LogLine>
  {
    if pieces == [] then [] else LogEntries(level, pieces[..|pieces| - 1]) + Entry(level, pieces[|pieces| - 1])
  }

  /** At most one entry per piece; every entry is a non-blank line of the given level,
      painted red exactly for errors. */
  lemma {:induction false} LogEntriesShape(level: string, pieces: seq<string>)
    ensures var r := LogEntries(level, pieces);
            |r| <= |pieces|
            && (forall i :: 0 <= i < |r| ==> r[i].level == level && r[i].line != "")
            && forall i :: 0 <= i < |r| ==> (r[i].colour == Red <==> level == "error")
  {
    if pieces != [] {
      LogEntriesShape(level, pieces[..|pieces| - 1]);
    }
  }

  /** What one piece of output logs. */
  function Entry(level: string, piece: string): (r: seq<LogLine>)
    ensures |r| <= 1
    ensures forall i :: 0 <= i < |r| ==> r[i].level == level && r[i].line != ""
    ensures forall i :: 0 <= i < |r| ==> (r[i].colour == Red <==> level == "error")
  {
    var line := Trim(piece);
    if line == "" then [] else [LogLine(level, if level == "error" then Red else Yellow, line)]
  }

  /** `String(data).trim().split(/[\r\n]+/)`. */
  function OutputLines(data: string): seq<string>
  {
    SplitRuns(Trim(data), IsLineBreak)
  }

  lemma LogEntriesStep(level: string, pieces: seq<string>, i: nat)
    requires i < |pieces|
    ensures LogEntries(level, pieces[..i + 1]) == LogEntries(level, pieces[..i]) + Entry(level, pieces[i])
  {
    assert pieces[..i + 1][..i] == pieces[..i];
  }

  /** Output that is one line, with no line break inside, is logged as one entry
      holding that line trimmed, or not at all when it is blank. */
  lemma OneLine(level: string, data: string)
    requires forall i :: 0 <= i < |data| ==> !IsLineBreak(data[i])
    ensures Trim(data) != "" ==> LogEntries(level, OutputLines(data)) == [LogLine(level, if level == "error" then Red else Yellow, Trim(data))]
    ensures Trim(data) == "" ==> LogEntries(level, OutputLines(data)) == []
  {
    var t := Trim(data);
    TrimInside(data);
    NoBreakSplit(t);
    TrimIdempotent(data);
    LogEntriesStep(level, [t], 0);
  }

  /** `Trim(s)` is a piece of `s`. */
  lemma TrimInside(s: string)
    ensures forall i :: 0 <= i < |Trim(s)| ==> Trim(s)[i] in s
  {
    var t := TrimStart(s);
    assert t == s[|s| - |t|..];
    var u := TrimEnd(t);
    assert u == t[..|u|];
    forall i | 0 <= i < |u| ensures u[i] in s {
      assert u[i] == s[|s| - |t| + i];
    }
  }

  lemma NoBreakSplit(t: string)
    requires forall i :: 0 <= i < |t| ==> !IsLineBreak(t[i])
    ensures SplitRuns(t, IsLineBreak) == [t]
  {
    assert FindFrom(t, 0, IsLineBreak) == |t|;
  }

  lemma TrimIdempotent(s: string)
    ensures Trim(Trim(s)) == Trim(s)
  {
    var r := Trim(s);
    if r != [] {
      assert TrimStart(r) == r;
      assert TrimEnd(r) == r;
    }
  }

  /** `run`'s `args`: missing becomes `[]` (the default parameter), any other
      non-array becomes a one-element list. */
  function RunArgs(args: Value): (r: seq<Value>)
    ensures args.Arr? ==> r == args.elems
    ensures args == Undefined ==> r == []
    ensures !args.Arr? && args != Undefined ==> r == [args]
  {
    if args == Undefined then []
    else if args.Arr? then args.elems
    else [args]
  }

  /** The defaults of the spawn options. */
  function DefaultOptions(cwd: string): map<string, Value>
  {
    map["cwd" := Str(cwd), "stdio" := Str("pipe"), "shell" := Bool(false)]
  }

  /** `Object.assign({cwd, stdio: 'pipe', shell: false}, options)`: the caller's options
      override the defaults key by key; a missing or primitive options value adds nothing. */
  function RunOptions(options: Value, cwd: string): (r: map<string, Value>)
    ensures options.Obj? ==> r.Keys == DefaultOptions(cwd).Keys + options.props.Keys
    ensures options.Obj? ==> forall k :: k in options.props ==> r[k] == options.props[k]
    ensures forall k :: k in DefaultOptions(cwd) && (!options.Obj? || k !in options.props) ==>
              k in r && r[k] == DefaultOptions(cwd)[k]
    ensures !options.Obj? ==> r == DefaultOptions(cwd)
  {
    if options.Obj? then DefaultOptions(cwd) + options.props else DefaultOptions(cwd)
  }

  /** The runner of src/Spawn.js. `process` is the handle of the running child, or
      null; `detached` lists the handles whose listeners `_close` removed. */
  class Spawn {
    var isRejected: bool
    var process: Optional<nat>
    var settled: seq<Settle>
    var log: seq<LogLine>
    var detached: seq<nat>

    predicate Valid()
      reads this
    {
      SettledOnce(settled, isRejected)
    }

    /** The constructor (src/Spawn.js:17-37). */
    constructor ()
      ensures !isRejected && process == None
      ensures settled == [] && log == [] && detached == []
      ensures Valid()
    {
      isRejected := false;
      process := None;
      settled := [];
      log := [];
      detached := [];
    }

    /** `_close()` (src/Spawn.js:39-55): detaches the listeners of the running process
        and forgets it; nothing happens when there is none. */
    method Close()
      modifies this
      ensures process == None
      ensures detached == old(detached) + (if old(process).Some? then [old(process).value] else [])
      ensures isRejected == old(isRejected) && settled == old(settled) && log == old(log)
    {
      if process.Some? {
        detached := detached + [process.value];
        process := None;
      }
    }

    /** `_onError(reject, error)` (src/Spawn.js:89-97): the first error closes the
        process and rejects; once rejected, errors are ignored. */
    method OnError(message: string)
      requires Valid()
      modifies this
      ensures Valid()
      ensures old(isRejected) ==>
                isRejected && process == old(process) && settled == old(settled) && detached == old(detached)
      ensures !old(isRejected) ==>
                isRejected && process == None && settled == old(settled) + [Reject(message)]
                && detached == old(detached) + (if old(process).Some? then [old(process).value] else [])
      ensures log == old(log)
    {
      if !isRejected {
        isRejected := true;
        Close();
        SettleReject(settled, message);
        settled := settled + [Reject(message)];
      }
    }

    /** `_onExit(resolve, reject, code)` (src/Spawn.js:108-123): ignored once rejected;
        otherwise closes the process, then resolves for code 0 and rejects with
        `Error: <code>` for any other code. */
    method OnExit(code: Value)
      requires Valid()
      modifies this
      ensures Valid()
      ensures old(isRejected) ==>
                isRejected && process == old(process) && settled == old(settled) && detached == old(detached)
      ensures !old(isRejected) ==>
                process == None && detached == old(detached) + (if old(process).Some? then [old(process).value] else [])
      ensures !old(isRejected) && code == Num(0) ==> !isRejected && settled == old(settled) + [Resolve]
      ensures !old(isRejected) && code != Num(0) ==>
                isRejected && settled == old(settled) + [Reject("Error: " + ToJsString(code))]
      ensures log == old(log)
    {
      if !isRejected {
        Close();
        if code == Num(0) {
          SettleResolve(settled);
          settled := settled + [Resolve];
        } else {
          isRejected := true;
          SettleReject(settled, "Error: " + ToJsString(code));
          settled := settled + [Reject("Error: " + ToJsString(code))];
        }
      }
    }

    /** `_log(level, data)` (src/Spawn.js:65-79). */
    method Log(level: string, data: string)
      modifies this
      ensures log == old(log) + LogEntries(level, OutputLines(data))
      ensures isRejected == old(isRejected) && process == old(process)
      ensures settled == old(settled) && detached == old(detached)
    {
      LogPieces(level, OutputLines(data));
    }

    /** The `forEach` of `_log` over the pieces of the output. */
    method LogPieces(level: string, pieces: seq<string>)
      modifies this
      ensures log == old(log) + LogEntries(level, pieces)
      ensures isRejected == old(isRejected) && process == old(process)
      ensures settled == old(settled) && detached == old(detached)
    {
      ghost var start := log;
      var i := 0;
      while i < |pieces|
        invariant 0 <= i <= |pieces|
        invariant log == start + LogEntries(level, pieces[..i])
        invariant isRejected == old(isRejected) && process == old(process)
        invariant settled == old(settled) && detached == old(detached)
      {
        LogEntriesStep(level, pieces, i);
        AppendAssoc(start, LogEntries(level, pieces[..i]), Entry(level, pieces[i]));
        log := log + Entry(level, pieces[i]);
        i := i + 1;
      }
      assert pieces[..i] == pieces;
    }

    /** `run(cmd, args, options, logger)` (src/Spawn.js:135-167) up to the spawn:
        `handle` is the process `spawn` starts. */
    method Run(cmd: string, args: Value, options: Value, logger: Value, cwd: string, handle: nat)
      returns (call: SpawnCall)
      modifies this
      ensures process == Some(handle)
      ensures call.cmd == cmd && call.args == RunArgs(args) && call.options == RunOptions(options, cwd)
      ensures call.output.Some? <==> RunOptions(options, cwd)["stdio"] == Str("pipe")
      ensures call.output.Some? ==> (call.output == Some(Logger(logger)) <==> logger.Fn?)
      ensures isRejected == old(isRejected) && settled == old(settled)
      ensures log == old(log) && detached == old(detached)
    {
      var opts := RunOptions(options, cwd);
      process := Some(handle);
      var output := None;
      if opts["stdio"] == Str("pipe") {
        output := if logger.Fn? then Some(Logger(logger)) else Some(OwnLog);
      }
      call := SpawnCall(cmd, RunArgs(args), opts, output);
    }
  }
}
