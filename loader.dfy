/**
 * The loader's control flow: create a temporary workspace, run `protoc`
 * with the gRPC plugin into it, read the generated service file, patch its
 * require of the message file, write it back, and hand webpack the module
 * text, calling the completion callback once. Every I/O step is an outcome
 * supplied in a `Script`; the observable behaviour is the sequence of calls
 * the loader makes (`Event`s), whether the workspace still exists, and the
 * contents of the files in it.
 *
 * `Expected` states the behaviour as a forward pass over the stages followed
 * by one uniform rule (on failure: remove the workspace, then report), and
 * the class `Invocation` follows the nested callbacks of the source; its
 * `Load` method is proved to behave exactly as `Expected` says.
 */
module Loader {
  import opened Wrappers
  import opened Generated

  /** An error object handed to a callback. */
  datatype Failure = Failure(code: string)

  /** What the completion callback receives: an error, or the module source. */
  datatype Reply = Errored(error: Failure) | Loaded(source: string)

  /**
   * How `execFile(protoc, ...)` completes: with an error (non-zero exit or
   * failure to start), or with its output and the files it wrote into the
   * workspace, keyed by path.
   */
  datatype Exec =
    | ExecFailed(error: Failure)
    | ExecExited(stdout: string, stderr: string, written: map<string, string>)

  /** The outcome of every I/O step of one invocation. */
  datatype Script = Script(
    mkdtemp: Result<string, Failure>,  // the random suffix `mkdtemp` appends, or its error
    exec: Exec,
    readFault: Option<Failure>,        // a read error other than a missing file
    writeFault: Option<Failure>,
    removeFault: Option<Failure>)      // an error of `rimraf`, which the loader ignores

  /** The fixed locations: the `protoc` binary, the gRPC plugin binary, the workspace name prefix. */
  datatype Config = Config(protoc: string, plugin: string, tmpPrefix: string)

  /** A call the loader makes, in the order it makes it. */
  datatype Event =
    | Cacheable
    | Mkdtemp(prefix: string)
    | ExecFile(program: string, args: seq<string>)
    | EmitError(text: string)
    | ReadCall(path: string)
    | WriteCall(path: string, text: string)
    | Rimraf(dir: string)
    | Callback(reply: Reply)

  /** The observable state: the workspace if it exists, the files in it, and the calls made. */
  datatype World = World(workspace: Option<string>, files: map<string, string>, trace: seq<Event>)

  /** The error `fs.readFile` reports for a file that does not exist. */
  const Enoent := Failure("ENOENT")

  /** The calls and file contents of the stages after workspace creation, and their result. */
  datatype Stages = Stages(calls: seq<Event>, files: map<string, string>, outcome: Result<string, Failure>)

  /** `fs.readFile(path, 'utf8')`: an injected fault, or the contents, or ENOENT for a missing file. */
  function Fetch(files: map<string, string>, path: string, fault: Option<Failure>): (r: Result<string, Failure>)
    ensures r.Ok? <==> fault.None? && path in files
    ensures r.Ok? ==> r.value == files[path]
    ensures r.Err? && fault.None? ==> r.error == Enoent
  {
    if fault.Some? then Err(fault.value)
    else if path in files then Ok(files[path]) else Err(Enoent)
  }

  /**
   * The step after the service file `value` was read: patch its require of
   * the message file, write it back, and produce the module text.
   */
  function Patch(a: Artifacts, value: string, files: map<string, string>, writeFault: Option<Failure>): Stages
  {
    var text := RewriteServices(value, a.messages);
    var calls := [WriteCall(a.services, text)];
    if writeFault.Some? then Stages(calls, files, Err(writeFault.value))
    else Stages(calls, files[a.services := text], Ok(GenerateOutput(a.messages, a.services)))
  }

  /** The step after the read of the service file: fail with its error, or `Patch`. */
  function Continue(a: Artifacts, read: Result<string, Failure>, files: map<string, string>,
                    writeFault: Option<Failure>): Stages
  {
    match read
    case Err(e) => Stages([], files, Err(e))
    case Ok(value) => Patch(a, value, files, writeFault)
  }

  /**
   * The stages after the compiler exited cleanly with `stderr` and wrote
   * `written`: warn, read the service file of the artifacts `a`, continue.
   */
  function Compiled(a: Artifacts, stderr: string, written: map<string, string>, s: Script): Stages
  {
    var c := Continue(a, Fetch(written, a.services, s.readFault), written, s.writeFault);
    var read := (if stderr != "" then [EmitError(stderr)] else []) + [ReadCall(a.services)];
    Stages(read + c.calls, c.files, c.outcome)
  }

  /**
   * The stages once the workspace exists, run forward until the first one
   * fails, for the compiler arguments `args` and the artifacts `a`: compile,
   * then `Compiled`.
   */
  function Run(cfg: Config, args: seq<string>, a: Artifacts, s: Script): Stages
  {
    var compile := ExecFile(cfg.protoc, args);
    match s.exec
    case ExecFailed(e) => Stages([compile], map[], Err(e))
    case ExecExited(_, stderr, written) =>
      var c := Compiled(a, stderr, written, s);
      Stages([compile] + c.calls, c.files, c.outcome)
  }

  /** The stages for the input `resourcePath` in the workspace `dir`. */
  function RunStages(cfg: Config, resourcePath: string, dir: string, s: Script): Stages
  {
    Run(cfg, ProtocArgs(resourcePath, dir, cfg.plugin), ArtifactPaths(resourcePath, dir), s)
  }

  /**
   * How an invocation ends once the workspace `dir` exists: on success the
   * callback gets the module text and the workspace stays; on failure the
   * workspace is removed (unless `rimraf` fails) and then the callback gets
   * the error.
   */
  function Settle(dir: string, st: Stages, removeFault: Option<Failure>, before: seq<Event>): World
  {
    var trace := before + st.calls + Closing(dir, st.outcome);
    if st.outcome.Err? && removeFault.None? then World(None, map[], trace) else World(Some(dir), st.files, trace)
  }

  /** The reply that carries a stage outcome. */
  function ReplyOf(outcome: Result<string, Failure>): Reply
  {
    match outcome
    case Ok(text) => Loaded(text)
    case Err(e) => Errored(e)
  }

  /** The last calls of an invocation: `rimraf` on failure, then the callback. */
  function Closing(dir: string, outcome: Result<string, Failure>): seq<Event>
  {
    (if outcome.Err? then [Rimraf(dir)] else []) + [Callback(ReplyOf(outcome))]
  }

  /** Calls made before later stages can be counted in the trace that comes before them. */
  lemma SettleAfter(dir: string, calls: seq<Event>, st: Stages, removeFault: Option<Failure>, before: seq<Event>)
    ensures Settle(dir, Stages(calls + st.calls, st.files, st.outcome), removeFault, before)
            == Settle(dir, st, removeFault, before + calls)
  {
    assert before + (calls + st.calls) == before + calls + st.calls;
  }

  /** The calls the loader makes before the workspace exists. */
  function Prologue(cfg: Config, cacheable: bool): seq<Event>
  {
    (if cacheable then [Cacheable] else []) + [Mkdtemp(cfg.tmpPrefix)]
  }

  /** The whole invocation, from a fresh loader context. */
  function Expected(cfg: Config, resourcePath: string, cacheable: bool, s: Script): World
  {
    match s.mkdtemp
    case Err(e) => World(None, map[], Prologue(cfg, cacheable) + [Callback(Errored(e))])
    case Ok(suffix) =>
      var dir := cfg.tmpPrefix + suffix;
      Settle(dir, RunStages(cfg, resourcePath, dir, s), s.removeFault, Prologue(cfg, cacheable))
  }

  /** How many times the trace calls the completion callback. */
  function CallbackCount(trace: seq<Event>): nat
  {
    if trace == [] then 0
    else CallbackCount(trace[..|trace| - 1]) + (if trace[|trace| - 1].Callback? then 1 else 0)
  }

  lemma {:induction false} CallbackCountAppend(a: seq<Event>, b: seq<Event>)
    ensures CallbackCount(a + b) == CallbackCount(a) + CallbackCount(b)
    decreases |b|
  {
    if b == [] {
      assert a + b == a;
    } else {
      var init := b[..|b| - 1];
      assert (a + b)[..|a + b| - 1] == a + init;
      assert (a + b)[|a + b| - 1] == b[|b| - 1];
      CallbackCountAppend(a, init);
    }
  }

  /** Holds when no call in `t` calls back or removes the workspace. */
  ghost predicate Quiet(t: seq<Event>)
  {
    forall k | 0 <= k < |t| :: !t[k].Callback? && !t[k].Rimraf?
  }

  lemma QuietAppend(a: seq<Event>, b: seq<Event>)
    requires Quiet(a) && Quiet(b)
    ensures Quiet(a + b)
  {
    forall k | 0 <= k < |a + b| ensures !(a + b)[k].Callback? && !(a + b)[k].Rimraf? {
      if k >= |a| {
        assert (a + b)[k] == b[k - |a|];
      }
    }
  }

  lemma {:induction false} NoCallbackCount(t: seq<Event>)
    requires Quiet(t)
    ensures CallbackCount(t) == 0
    decreases |t|
  {
    if t != [] {
      NoCallbackCount(t[..|t| - 1]);
    }
  }

  /** What the callback received, when the last call made was the callback. */
  function Reported(w: World): Option<Reply>
  {
    if w.trace != [] && w.trace[|w.trace| - 1].Callback? then Some(w.trace[|w.trace| - 1].reply) else None
  }

  /** The calls before the workspace exists neither call back nor remove anything. */
  lemma PrologueIsQuiet(cfg: Config, cacheable: bool)
    ensures Quiet(Prologue(cfg, cacheable))
  {
  }

  /** The stages never call the callback themselves, nor remove the workspace. */
  lemma RunIsQuiet(cfg: Config, args: seq<string>, a: Artifacts, s: Script)
    ensures Quiet(Run(cfg, args, a, s).calls)
  {
    match s.exec
    case ExecFailed(_) =>
    case ExecExited(_, stderr, written) =>
      var c := Continue(a, Fetch(written, a.services, s.readFault), written, s.writeFault);
      var warn := if stderr != "" then [EmitError(stderr)] else [];
      assert Quiet(c.calls);
      QuietAppend(warn, [ReadCall(a.services)]);
      QuietAppend(warn + [ReadCall(a.services)], c.calls);
      QuietAppend([ExecFile(cfg.protoc, args)], Compiled(a, stderr, written, s).calls);
  }

  /**
   * The stages succeed exactly when the compiler exits, the service file it
   * wrote is read and written back; the outcome is the error of the first
   * step that fails, and on success the service file holds the patched text.
   */
  lemma RunOutcome(cfg: Config, args: seq<string>, a: Artifacts, s: Script)
    ensures Run(cfg, args, a, s).outcome ==
              if s.exec.ExecFailed? then Err(s.exec.error)
              else if s.readFault.Some? then Err(s.readFault.value)
              else if a.services !in s.exec.written then Err(Enoent)
              else if s.writeFault.Some? then Err(s.writeFault.value)
              else Ok(GenerateOutput(a.messages, a.services))
    ensures Run(cfg, args, a, s).outcome.Ok? ==>
              && a.services in s.exec.written
              && Run(cfg, args, a, s).files
                 == s.exec.written[a.services := RewriteServices(s.exec.written[a.services], a.messages)]
  {
  }

  /** Compiler output on stderr only adds the `emitError` call. */
  lemma RunIgnoresWarning(cfg: Config, args: seq<string>, a: Artifacts, s: Script)
    requires s.exec.ExecExited?
    ensures var quiet := s.(exec := s.exec.(stderr := ""));
            && Run(cfg, args, a, s).outcome == Run(cfg, args, a, quiet).outcome
            && Run(cfg, args, a, s).files == Run(cfg, args, a, quiet).files
            && (s.exec.stderr != "" ==> EmitError(s.exec.stderr) in Run(cfg, args, a, s).calls)
  {
  }

  /** The closing calls hold one callback, last, and a removal exactly on failure, first. */
  lemma ClosingCallsBackOnce(dir: string, outcome: Result<string, Failure>)
    ensures var c := Closing(dir, outcome);
            && CallbackCount(c) == 1
            && c[|c| - 1] == Callback(ReplyOf(outcome))
            && (outcome.Err? ==> |c| == 2 && c[0] == Rimraf(dir))
            && (outcome.Ok? ==> c == [Callback(ReplyOf(outcome))])
  {
    var c := Closing(dir, outcome);
    assert c[..|c| - 1] == if outcome.Err? then [Rimraf(dir)] else [];
    if outcome.Err? {
      assert [Rimraf(dir)][..0] == [];
      assert CallbackCount([Rimraf(dir)]) == 0;
    }
  }

  /** After quiet calls, the trace calls back exactly once, last, with the stages' outcome. */
  lemma SettleCallsBackOnce(dir: string, st: Stages, removeFault: Option<Failure>, before: seq<Event>)
    requires Quiet(before + st.calls)
    ensures var w := Settle(dir, st, removeFault, before);
            && CallbackCount(w.trace) == 1
            && Reported(w) == Some(ReplyOf(st.outcome))
  {
    var t := before + st.calls;
    NoCallbackCount(t);
    ClosingCallsBackOnce(dir, st.outcome);
    CallbackCountAppend(t, Closing(dir, st.outcome));
  }

  /**
   * After quiet calls, the workspace is removed exactly when the outcome is
   * an error, right before the callback.
   */
  lemma SettleRemovesOnFailure(dir: string, st: Stages, removeFault: Option<Failure>, before: seq<Event>)
    requires Quiet(before + st.calls)
    ensures var w := Settle(dir, st, removeFault, before);
            && (st.outcome.Err? ==> |w.trace| >= 2 && w.trace[|w.trace| - 2] == Rimraf(dir))
            && (st.outcome.Ok? ==> forall k | 0 <= k < |w.trace| :: !w.trace[k].Rimraf?)
  {
    var t := before + st.calls;
    var w := Settle(dir, st, removeFault, before).trace;
    ClosingCallsBackOnce(dir, st.outcome);
    if st.outcome.Ok? {
      forall k | 0 <= k < |w| ensures !w[k].Rimraf? {
        if k < |t| {
          assert w[k] == t[k];
        }
      }
    }
  }

  /** The calls of an invocation that got its workspace, up to the final ones, are quiet. */
  lemma StartedIsQuiet(cfg: Config, resourcePath: string, cacheable: bool, dir: string, s: Script)
    ensures Quiet(Prologue(cfg, cacheable) + RunStages(cfg, resourcePath, dir, s).calls)
  {
    PrologueIsQuiet(cfg, cacheable);
    RunIsQuiet(cfg, ProtocArgs(resourcePath, dir, cfg.plugin), ArtifactPaths(resourcePath, dir), s);
    QuietAppend(Prologue(cfg, cacheable), RunStages(cfg, resourcePath, dir, s).calls);
  }

  /** On every path the callback is called exactly once, and it is the last call made. */
  lemma CallbackFiresOnce(cfg: Config, resourcePath: string, cacheable: bool, s: Script)
    ensures CallbackCount(Expected(cfg, resourcePath, cacheable, s).trace) == 1
    ensures Reported(Expected(cfg, resourcePath, cacheable, s)).Some?
  {
    var start := Prologue(cfg, cacheable);
    match s.mkdtemp
    case Err(e) =>
      PrologueIsQuiet(cfg, cacheable);
      NoCallbackCount(start);
      CallbackCountAppend(start, [Callback(Errored(e))]);
    case Ok(suffix) =>
      var dir := cfg.tmpPrefix + suffix;
      StartedIsQuiet(cfg, resourcePath, cacheable, dir, s);
      SettleCallsBackOnce(dir, RunStages(cfg, resourcePath, dir, s), s.removeFault, start);
  }

  /**
   * A failed `mkdtemp` is reported straight away: the callback gets its
   * error, nothing is removed, and no workspace exists.
   */
  lemma MkdtempFailureReportsAtOnce(cfg: Config, resourcePath: string, cacheable: bool, s: Script)
    requires s.mkdtemp.Err?
    ensures var w := Expected(cfg, resourcePath, cacheable, s);
            && Reported(w) == Some(Errored(s.mkdtemp.error))
            && w.workspace == None
            && forall k | 0 <= k < |w.trace| :: !w.trace[k].Rimraf?
  {
    PrologueIsQuiet(cfg, cacheable);
  }

  /**
   * Once the workspace exists, every reported error comes right after the
   * call that removes it, and, unless that removal fails, no workspace is
   * left on disk.
   */
  lemma FailureRemovesWorkspaceFirst(cfg: Config, resourcePath: string, cacheable: bool, s: Script)
    requires s.mkdtemp.Ok?
    ensures var w := Expected(cfg, resourcePath, cacheable, s);
            Reported(w).Some? && Reported(w).value.Errored? ==>
              && |w.trace| >= 2
              && w.trace[|w.trace| - 2] == Rimraf(cfg.tmpPrefix + s.mkdtemp.value)
              && (s.removeFault.None? ==> w.workspace == None && w.files == map[])
  {
    var dir := cfg.tmpPrefix + s.mkdtemp.value;
    var st := RunStages(cfg, resourcePath, dir, s);
    StartedIsQuiet(cfg, resourcePath, cacheable, dir, s);
    SettleCallsBackOnce(dir, st, s.removeFault, Prologue(cfg, cacheable));
    SettleRemovesOnFailure(dir, st, s.removeFault, Prologue(cfg, cacheable));
  }

  /**
   * An invocation succeeds exactly when every step succeeds and the compiler
   * wrote the service file; a failure reports the error of the first step
   * that failed.
   */
  lemma ReplyIsFirstFailure(cfg: Config, resourcePath: string, cacheable: bool, s: Script)
    requires s.mkdtemp.Ok?
    ensures var a := ArtifactPaths(resourcePath, cfg.tmpPrefix + s.mkdtemp.value);
            Reported(Expected(cfg, resourcePath, cacheable, s)) == Some(
              if s.exec.ExecFailed? then Errored(s.exec.error)
              else if s.readFault.Some? then Errored(s.readFault.value)
              else if a.services !in s.exec.written then Errored(Enoent)
              else if s.writeFault.Some? then Errored(s.writeFault.value)
              else Loaded(GenerateOutput(a.messages, a.services)))
  {
    var dir := cfg.tmpPrefix + s.mkdtemp.value;
    RunOutcome(cfg, ProtocArgs(resourcePath, dir, cfg.plugin), ArtifactPaths(resourcePath, dir), s);
    StartedIsQuiet(cfg, resourcePath, cacheable, dir, s);
    SettleCallsBackOnce(dir, RunStages(cfg, resourcePath, dir, s), s.removeFault, Prologue(cfg, cacheable));
  }

  /**
   * On success the module text re-exports the two artifacts, the patched
   * service text is what the service file now holds, and the workspace is
   * left on disk: nothing removes it.
   */
  lemma SuccessKeepsWorkspace(cfg: Config, resourcePath: string, cacheable: bool, s: Script)
    requires Reported(Expected(cfg, resourcePath, cacheable, s)).Some?
    requires Reported(Expected(cfg, resourcePath, cacheable, s)).value.Loaded?
    ensures s.mkdtemp.Ok? && s.exec.ExecExited?
    ensures var dir := cfg.tmpPrefix + s.mkdtemp.value;
            var a := ArtifactPaths(resourcePath, dir);
            var w := Expected(cfg, resourcePath, cacheable, s);
            && Reported(w) == Some(Loaded(GenerateOutput(a.messages, a.services)))
            && w.workspace == Some(dir)
            && a.services in s.exec.written && a.services in w.files
            && w.files[a.services] == RewriteServices(s.exec.written[a.services], a.messages)
            && forall k | 0 <= k < |w.trace| :: !w.trace[k].Rimraf?
  {
    if s.mkdtemp.Err? {
      MkdtempFailureReportsAtOnce(cfg, resourcePath, cacheable, s);
    } else {
      var dir := cfg.tmpPrefix + s.mkdtemp.value;
      var st := RunStages(cfg, resourcePath, dir, s);
      RunOutcome(cfg, ProtocArgs(resourcePath, dir, cfg.plugin), ArtifactPaths(resourcePath, dir), s);
      StartedIsQuiet(cfg, resourcePath, cacheable, dir, s);
      SettleCallsBackOnce(dir, st, s.removeFault, Prologue(cfg, cacheable));
      SettleRemovesOnFailure(dir, st, s.removeFault, Prologue(cfg, cacheable));
    }
  }

  /**
   * Compiler output on stderr after a clean exit is passed to `emitError`
   * and does not change the outcome: the reply, the workspace and its files
   * are those of the same run with empty stderr.
   */
  lemma WarningDoesNotAbort(cfg: Config, resourcePath: string, cacheable: bool, s: Script)
    requires s.mkdtemp.Ok? && s.exec.ExecExited?
    ensures var quiet := s.(exec := s.exec.(stderr := ""));
            var w, v := Expected(cfg, resourcePath, cacheable, s), Expected(cfg, resourcePath, cacheable, quiet);
            && Reported(w) == Reported(v)
            && w.workspace == v.workspace && w.files == v.files
            && (s.exec.stderr != "" ==> EmitError(s.exec.stderr) in w.trace)
  {
    var quiet := s.(exec := s.exec.(stderr := ""));
    var dir := cfg.tmpPrefix + s.mkdtemp.value;
    var args, a := ProtocArgs(resourcePath, dir, cfg.plugin), ArtifactPaths(resourcePath, dir);
    RunIgnoresWarning(cfg, args, a, s);
    SettleByOutcome(dir, Run(cfg, args, a, s), Run(cfg, args, a, quiet), s.removeFault, Prologue(cfg, cacheable));
  }

  /** The reply and the state left behind depend only on the stages' outcome and files. */
  lemma SettleByOutcome(dir: string, st: Stages, st': Stages, removeFault: Option<Failure>, before: seq<Event>)
    requires st.outcome == st'.outcome && st.files == st'.files
    ensures var w, v := Settle(dir, st, removeFault, before), Settle(dir, st', removeFault, before);
            && Reported(w) == Reported(v)
            && w.workspace == v.workspace && w.files == v.files
            && forall e | e in st.calls :: e in w.trace
  {
  }

  /** One invocation of the loader, against a loader context and the file system. */
  class Invocation {
    const cfg: Config
    const resourcePath: string
    const cacheable: bool  // whether the loader context offers `cacheable`
    var workspace: Option<string>
    var files: map<string, string>
    var trace: seq<Event>

    ghost function State(): World
      reads this
    {
      World(workspace, files, trace)
    }

    constructor (cfg: Config, resourcePath: string, cacheable: bool)
      ensures this.cfg == cfg && this.resourcePath == resourcePath && this.cacheable == cacheable
      ensures State() == World(None, map[], [])
    {
      this.cfg := cfg;
      this.resourcePath := resourcePath;
      this.cacheable := cacheable;
      workspace := None;
      files := map[];
      trace := [];
    }

    /** The loader function webpack calls. */
    method Load(s: Script)
      requires State() == World(None, map[], [])
      modifies this
      ensures State() == Expected(cfg, resourcePath, cacheable, s)
    {
      if cacheable {
        trace := trace + [Cacheable];
      }
      var made := CreateTmpDir(s.mkdtemp);
      assert trace == Prologue(cfg, cacheable);
      match made {
        case Err(e) =>
          Respond(Errored(e));
        case Ok(dir) =>
          ProcessProto(dir, s);
          assert State() == Settle(dir, RunStages(cfg, resourcePath, dir, s), s.removeFault, Prologue(cfg, cacheable));
      }
    }

    /** `fs.mkdtemp(prefix)`: creates the workspace `prefix + suffix`, or fails. */
    method CreateTmpDir(outcome: Result<string, Failure>) returns (r: Result<string, Failure>)
      modifies this
      ensures trace == old(trace) + [Mkdtemp(cfg.tmpPrefix)]
      ensures r == if outcome.Ok? then Ok(cfg.tmpPrefix + outcome.value) else outcome
      ensures workspace == (if r.Ok? then Some(r.value) else old(workspace))
      ensures files == (if r.Ok? then map[] else old(files))
    {
      trace := trace + [Mkdtemp(cfg.tmpPrefix)];
      match outcome {
        case Err(e) =>
          r := Err(e);
        case Ok(suffix) =>
          r := Ok(cfg.tmpPrefix + suffix);
          workspace := Some(cfg.tmpPrefix + suffix);
          files := map[];
      }
    }

    /** `rimraf(dir)`: removes the workspace and its files unless removal fails. */
    method RemoveTmpDir(dir: string, fault: Option<Failure>)
      modifies this
      ensures trace == old(trace) + [Rimraf(dir)]
      ensures fault.None? && old(workspace) == Some(dir) ==> workspace == None && files == map[]
      ensures !(fault.None? && old(workspace) == Some(dir)) ==>
                workspace == old(workspace) && files == old(files)
    {
      trace := trace + [Rimraf(dir)];
      if fault.None? && workspace == Some(dir) {
        workspace := None;
        files := map[];
      }
    }

    /** Calls the completion callback. */
    method Respond(reply: Reply)
      modifies this
      ensures trace == old(trace) + [Callback(reply)]
      ensures workspace == old(workspace) && files == old(files)
    {
      trace := trace + [Callback(reply)];
    }

    /** `fs.readFile(path, 'utf8')` on the workspace. */
    method ReadFile(path: string, fault: Option<Failure>) returns (r: Result<string, Failure>)
      modifies this
      ensures trace == old(trace) + [ReadCall(path)]
      ensures workspace == old(workspace) && files == old(files)
      ensures r == Fetch(files, path, fault)
    {
      trace := trace + [ReadCall(path)];
      r := Fetch(files, path, fault);
    }

    /** `fs.writeFile(path, text)` on the workspace; a failed write leaves the files as they were. */
    method WriteFile(path: string, text: string, fault: Option<Failure>) returns (err: Option<Failure>)
      modifies this
      ensures trace == old(trace) + [WriteCall(path, text)]
      ensures workspace == old(workspace)
      ensures err == fault
      ensures files == if fault.None? then old(files)[path := text] else old(files)
    {
      trace := trace + [WriteCall(path, text)];
      err := fault;
      if fault.None? {
        files := files[path := text];
      }
    }

    /** Derives the artifact paths from the input name and reads the generated service file. */
    method GetGeneratedFile(dir: string, fault: Option<Failure>) returns (a: Artifacts, r: Result<string, Failure>)
      modifies this
      ensures a == ArtifactPaths(resourcePath, dir)
      ensures trace == old(trace) + [ReadCall(a.services)]
      ensures workspace == old(workspace) && files == old(files)
      ensures r == Fetch(files, a.services, fault)
    {
      a := ArtifactPaths(resourcePath, dir);
      r := ReadFile(a.services, fault);
    }

    /** A failed step: remove the workspace, then pass the error to the callback. */
    method Abandon(dir: string, e: Failure, removeFault: Option<Failure>)
      requires workspace == Some(dir)
      modifies this
      ensures State() == Settle(dir, Stages([], old(files), Err(e)), removeFault, old(trace))
    {
      RemoveTmpDir(dir, removeFault);
      Respond(Errored(e));
    }

    /**
     * The callback of `getGeneratedFile`: on a read error, abandon; otherwise
     * patch the service file `value`, write it back, and report the module
     * text or the write error.
     */
    method OnGeneratedFile(dir: string, a: Artifacts, read: Result<string, Failure>, s: Script)
      requires workspace == Some(dir)
      modifies this
      ensures State() == Settle(dir, Continue(a, read, old(files), s.writeFault), s.removeFault, old(trace))
    {
      match read {
        case Err(e) =>
          Abandon(dir, e, s.removeFault);
        case Ok(value) =>
          var patched := RewriteServices(value, a.messages);
          var err := WriteFile(a.services, patched, s.writeFault);
          if err.Some? {
            Abandon(dir, err.value, s.removeFault);
          } else {
            Respond(Loaded(GenerateOutput(a.messages, a.services)));
          }
      }
    }

    /** Runs the compiler into the workspace with the arguments `ProtocArgs` builds. */
    method ProcessProto(dir: string, s: Script)
      requires workspace == Some(dir) && files == map[]
      modifies this
      ensures State() == Settle(dir, RunStages(cfg, resourcePath, dir, s), s.removeFault, old(trace))
    {
      ExecProtoc(dir, ProtocArgs(resourcePath, dir, cfg.plugin), s);
    }

    /**
     * `execFile(protoc, args)` and its completion callback: on an error,
     * abandon; otherwise continue with `OnCompiled`.
     */
    method ExecProtoc(dir: string, args: seq<string>, s: Script)
      requires workspace == Some(dir) && files == map[]
      modifies this
      ensures State() == Settle(dir, Run(cfg, args, ArtifactPaths(resourcePath, dir), s), s.removeFault, old(trace))
    {
      var compile := ExecFile(cfg.protoc, args);
      trace := trace + [compile];
      match s.exec {
        case ExecFailed(e) =>
          Abandon(dir, e, s.removeFault);
        case ExecExited(_, stderr, written) =>
          files := written;
          OnCompiled(dir, stderr, s);
          SettleAfter(dir, [compile], Compiled(ArtifactPaths(resourcePath, dir), stderr, written, s),
                      s.removeFault, old(trace));
      }
    }

    /**
     * The rest of the compiler's callback once it exited cleanly: pass
     * stderr to `emitError`, read the service file, and continue with
     * `OnGeneratedFile`.
     */
    method OnCompiled(dir: string, stderr: string, s: Script)
      requires workspace == Some(dir)
      modifies this
      ensures State() == Settle(dir, Compiled(ArtifactPaths(resourcePath, dir), stderr, old(files), s),
                                s.removeFault, old(trace))
    {
      if stderr != "" {
        trace := trace + [EmitError(stderr)];
      }
      var a, value := GetGeneratedFile(dir, s.readFault);
      ghost var read := (if stderr != "" then [EmitError(stderr)] else []) + [ReadCall(a.services)];
      assert trace == old(trace) + read;
      OnGeneratedFile(dir, a, value, s);
      SettleAfter(dir, read, Continue(a, value, old(files), s.writeFault), s.removeFault, old(trace));
    }
  }
}
