# grpc-loader, modelled in Dafny

`grpc-loader` is a webpack loader for `.proto` files. For each input file it
creates a temporary workspace, runs `protoc` with the gRPC Node plugin into
it, and reads back the generated service-binding file
`<stem>_grpc_pb.js`. It rewrites that file's same-directory `require` of the
message-binding file `<stem>_pb.js` into a webpack `!!` request with '/'
separators and writes it back. It then hands webpack a small module that
re-exports `services` and `messages` from the two files. Every failure after
the workspace exists removes the workspace before the error reaches
webpack's callback. On success the workspace is left in place.

The project has five modules:

- `Wrappers` (`wrappers.dfy`): `Option` and `Result`.
- `Paths` (`paths.dfy`): Node's POSIX `path.basename` (without a suffix, and
  with a suffix for paths without a trailing '/'), `path.dirname`,
  `path.join` of a directory and a file name, and the extension strip
  `replace(/\.[^/.]+$/, '')`.
- `Text` (`text.dfy`): the JavaScript string operations the loader uses.
  - `indexOf`.
  - `replace` with a string pattern. Only the first occurrence is replaced,
    and `$$`, `$&`, `` $` `` and `$'` in the replacement are expanded.
  - `replace(/\\/g, '/')`.
  - `split('\n')`, used to state the layout of the output.
- `Generated` (`generated.dfy`): the pure parts of `index.js`.
  - The artifact names.
  - The patch of the service file.
  - `generateOutput`.
  - The `protoc` argument vector.
- `Loader` (`loader.dfy`): the control flow of `processProto` and the
  exported loader function.
  - Each I/O step (mkdtemp, execFile, readFile, writeFile, rimraf) is an
    outcome supplied in a `Script`.
  - The observable state is a `World`: whether the workspace exists, the
    files in it, and the trace of calls the loader makes (`cacheable`,
    `mkdtemp`, `execFile`, `emitError`, `readFile`, `writeFile`, `rimraf`,
    and the completion callback).
  - `Expected` states the behaviour as a forward pass over the stages,
    followed by one rule: on failure, `rimraf` and then the callback. The
    properties are lemmas about `Expected`.
  - The class `Loader.Invocation` follows the nested callbacks of the
    source. Its `Load` method is proved to produce exactly the `World` that
    `Expected` describes.

The rewrite is meant to leave no same-directory reference to the message
file in the service file. The code calls `String.prototype.replace` with a
string pattern, which replaces only the first occurrence. The model
follows the code: `RewriteServicesPatches` shows that any later occurrence
is kept.

## Model

| member | source | states |
|---|---|---|
| Paths.BaseName | index.js:21 | `path.basename`: the result has no '/', and it is empty exactly when the path consists only of '/' characters |
| Paths.Join | index.js:22-23 | `path.join(dir, name)` for a directory and a plain file name, as `dir/name` without normalisation; no contract of its own: `BaseNameOfJoin` and `DirNameOfJoin` state what it means |
| Paths.BaseNameWithout | index.js:65 | `path.basename(p, ext)`: the result is a prefix of the base name, and with an empty `ext` it is the base name |
| Paths.DirName | index.js:50 | `path.dirname`: the result is `.`, `/`, `//` or a proper prefix of the path |
| Paths.BaseNameOfJoin | index.js:21-23 | the base name of `dir/name` is `name` for a non-empty, separator-free name |
| Paths.DirNameOfJoin | index.js:50 | the directory of `dir/name` is `dir` when `dir` is non-empty and has no trailing '/' |
| Paths.ExtensionStart | index.js:21 | finds the index where `/\.[^/.]+$/` matches, or reports that it matches nowhere |
| Paths.StripExtension | index.js:21 | the result is a prefix of the name; where the regex matches, the text from the match on is removed; where it does not, the name is unchanged |
| Paths.StripExtensionOf | index.js:21 | `stem.ext` becomes `stem` for any non-empty extension without '.' or '/' |
| Paths.StripExtensionNoDot | index.js:21 | a name without '.' is unchanged |
| Paths.StripExtensionExamples | index.js:21 | `noext` and `file.` are unchanged, `a.b.proto` becomes `a.b`, and `.proto` becomes empty |
| Text.IndexOfFrom | index.js:68 | returns the first index at or after `from` where the pattern occurs, or none when it occurs nowhere from there |
| Text.Substitution | index.js:68 | a replacement without '$' is inserted literally |
| Text.ReplaceFirst | index.js:68 | `replace` with a string pattern: with no occurrence the input is returned; otherwise the text before the first occurrence starts the result and the text after it ends the result |
| Text.ReplaceFirstAbsent | index.js:68 | with no occurrence of the pattern, `replace` returns its input |
| Text.ReplaceFirstAt | index.js:68 | a '$'-free replacement takes the place of the first occurrence only; the text before and after it is kept |
| Text.ForwardSlashes | index.js:68 | same length; each '\\' becomes '/' and every other character is kept in place |
| Text.ForwardSlashesNormalises | index.js:68 | no '\\' remains; the identity on '\\'-free text; idempotent; other characters present exactly when they were before |
| Text.Lines | index.js:40-45 | a specification device for `OutputLayout` (the source never splits text): splitting on line feeds yields at least one line |
| Text.LinesOfOneLine | index.js:40-45 | a specification device for `OutputLayout`: text without a line feed is one line |
| Text.LinesAfter | index.js:40-45 | a specification device for `OutputLayout`: a line feed after a line-feed-free prefix ends the first line there |
| Generated.ArtifactStem | index.js:21 | the stem of the input (base name minus last extension) has no '/' |
| Generated.ArtifactPaths | index.js:21-23 | the two artifacts for an input, `Named` by its stem in the workspace; no contract of its own: `ArtifactNames`, `ArtifactsInWorkspace` and `GreeterScenario` state what they are |
| Generated.ArtifactNames | index.js:22-23 | the artifacts are named `<stem>_pb.js` and `<stem>_grpc_pb.js`; the message file's base name without `.js` is `<stem>_pb` |
| Generated.ArtifactsInWorkspace | index.js:22-23 | both artifacts lie directly in the workspace directory |
| Generated.BundlerRequire | index.js:68 | the `!!` request for the message file contains no backslash |
| Generated.LocalRequireOfMessages | index.js:65 | the needle built from `path.basename(protocFilePath, '.js')` is `require('./<stem>_pb.js');` |
| Generated.BundlerRequireLiteral | index.js:68 | a '$'-free message path gives a '$'-free replacement |
| Generated.RewriteServices | index.js:68 | the patch of the service text: `replace` of the local require by the `!!` request; no contract of its own: `RewriteServicesPatches` and `RewriteServicesNoRequire` state its effect |
| Generated.RewriteServicesPatches | index.js:68 | the first `require('./<stem>_pb.js');` becomes the `!!` request for the message path; everything before and after it, later occurrences included, is kept |
| Generated.RewriteServicesNoRequire | index.js:68 | a service file without that require is written back unchanged |
| Generated.GenerateOutput | index.js:40-45 | the template literal of `generateOutput`; no contract of its own: `OutputLayout` states its four lines |
| Generated.OutputLayout | index.js:40-45 | the module is four lines: empty, the `services` re-export of the service path, the `messages` re-export of the message path, and two spaces; the paths appear verbatim |
| Generated.ExportLineIsOneLine | index.js:42-43 | a re-export statement of line-feed-free text has no line feed |
| Generated.GreeterScenario | index.js:20-23 | for `greeter.proto` the artifacts are `greeter_pb.js` and `greeter_grpc_pb.js` in the workspace, and the module re-exports them in order |
| Generated.GreeterStem | index.js:21 | the stem of `srcDir/greeter.proto` is `greeter` |
| Generated.FlagRoundTrip | index.js:50-53 | reading back a `--name=value` argument gives `value` |
| Generated.ProtocArgs | index.js:49-54 | five arguments, in order: `--proto_path` set to the input's directory, `--js_out` set to `import_style=commonjs,binary:<dir>`, `--grpc_out` set to `<dir>`, `--plugin` set to `protoc-gen-grpc=<plugin>`, and the input path last |
| Generated.ProtocIncludeRoot | index.js:50 | for an input `srcDir/file` the include root is `srcDir` |
| Loader.Fetch | index.js:25-28 | `readFile` succeeds exactly when there is no fault and the file exists, and yields its contents; a missing file gives ENOENT |
| Loader.Patch | index.js:65-75 | reference definition: the patched text is written to the service file; a write error is the outcome, otherwise the files hold the patched text and the outcome is `generateOutput` of the two paths; its properties are `RunOutcome` and `RunIsQuiet` |
| Loader.Continue | index.js:62-63 | reference definition: a read error is the outcome, otherwise `Patch`; stated through `RunOutcome` |
| Loader.Compiled | index.js:60-62 | reference definition: `emitError` for non-empty stderr, then the read of the service file, then `Continue`; stated through `RunOutcome` and `RunIgnoresWarning` |
| Loader.Run | index.js:48-59 | reference definition of the stages after the workspace exists: the compiler call, its error as the outcome or `Compiled`; stated through `RunOutcome`, `RunIsQuiet` and `RunIgnoresWarning` |
| Loader.RunStages | index.js:47-57 | the stages for an input in a workspace: `Run` with the arguments of `ProtocArgs` and the artifacts of `ArtifactPaths`; met by `Invocation.ProcessProto` |
| Loader.Settle | index.js:59-75 | reference definition of how an invocation ends: the `Closing` calls after the stages, and the workspace gone after a failure unless `rimraf` fails; stated through `SettleCallsBackOnce`, `SettleRemovesOnFailure` and `SettleByOutcome` |
| Loader.Closing | index.js:59-75 | reference definition: `rimraf` on failure, then the callback; stated through `ClosingCallsBackOnce` |
| Loader.Prologue | index.js:82-86 | reference definition: `cacheable` when the context offers it, then `mkdtemp`; stated through `PrologueIsQuiet` |
| Loader.Expected | index.js:81-91 | reference definition of a whole invocation: a `mkdtemp` error is reported at once, otherwise the stages are settled; stated through `CallbackFiresOnce`, `MkdtempFailureReportsAtOnce`, `FailureRemovesWorkspaceFirst`, `ReplyIsFirstFailure`, `SuccessKeepsWorkspace` and `WarningDoesNotAbort`, and met by `Invocation.Load` |
| Loader.PrologueIsQuiet | index.js:82-86 | `cacheable` and `mkdtemp` neither call back nor remove anything |
| Loader.RunIsQuiet | index.js:48-78 | the stages never call the callback and never remove the workspace themselves |
| Loader.RunOutcome | index.js:58-75 | the stages succeed exactly when exec, read and write succeed and the service file was generated; otherwise the outcome is the first step's error; on success the service file holds the patched text |
| Loader.RunIgnoresWarning | index.js:60 | non-empty stderr adds an `emitError(stderr)` call and changes neither the outcome nor the files |
| Loader.ClosingCallsBackOnce | index.js:59-75 | the closing calls hold exactly one callback, last; on failure `rimraf` comes first, and on success there is nothing else |
| Loader.SettleCallsBackOnce | index.js:59-75 | after quiet stages the trace calls back exactly once, last, with the stages' outcome |
| Loader.SettleRemovesOnFailure | index.js:59-75 | after quiet stages, an error comes right after `rimraf` of the workspace, and a success never removes it |
| Loader.SettleByOutcome | index.js:58-78 | the reply and the state left behind depend only on the stages' outcome and files |
| Loader.CallbackFiresOnce | index.js:81-91 | on every path the callback is called exactly once, as the last call |
| Loader.MkdtempFailureReportsAtOnce | index.js:86-87 | a `mkdtemp` failure is reported with its error, with no workspace and no `rimraf` |
| Loader.FailureRemovesWorkspaceFirst | index.js:59-71 | once the workspace exists, every reported error follows `rimraf` of it, and no workspace remains unless `rimraf` fails |
| Loader.ReplyIsFirstFailure | index.js:58-75 | the reply is the error of the first failing step (exec, read, missing service file, write), otherwise `generateOutput` of the two artifact paths |
| Loader.SuccessKeepsWorkspace | index.js:70-75 | on success the reply is `generateOutput(...)`, the service file holds the patched text, the workspace exists and nothing removed it |
| Loader.WarningDoesNotAbort | index.js:60 | stderr output is passed to `emitError`; the reply, the workspace and its files are those of the same run with empty stderr |
| Loader.Invocation.constructor | index.js:81 | a fresh invocation: no workspace, no files, no calls |
| Loader.Invocation.Load | index.js:81-91 | the loader function leaves exactly the `World` that `Expected` describes |
| Loader.Invocation.CreateTmpDir | index.js:32-34 | `mkdtemp` creates the workspace `prefix + suffix` with no files, or fails and changes nothing |
| Loader.Invocation.RemoveTmpDir | index.js:36-38 | `rimraf` removes the workspace and its files unless it fails |
| Loader.Invocation.Respond | index.js:84 | the callback is recorded and nothing else changes |
| Loader.Invocation.ReadFile | index.js:25-28 | the read is recorded, its result is `Fetch` of the files, and nothing else changes |
| Loader.Invocation.WriteFile | index.js:70 | the write is recorded and replaces the file's text unless it fails |
| Loader.Invocation.GetGeneratedFile | index.js:20-30 | derives the artifact paths from the input name and reads the service file |
| Loader.Invocation.Abandon | index.js:59 | a failed step removes the workspace and then reports the error |
| Loader.Invocation.OnGeneratedFile | index.js:62-77 | the read callback: on an error, abandon; otherwise patch, write back, and report the module text or the write error |
| Loader.Invocation.ProcessProto | index.js:47-57 | runs `protoc` with `ProtocArgs` and then settles as `RunStages` says |
| Loader.Invocation.ExecProtoc | index.js:48-61 | the compiler call and its callback: on an error, abandon; otherwise continue with the stages after compilation |
| Loader.Invocation.OnCompiled | index.js:60-62 | after a clean exit: `emitError` for non-empty stderr, read the service file, continue |

## Left out

- Running `protoc` and the gRPC plugin. Their effect is an `Exec` outcome: an error, or stdout, stderr and the files written. A failed run is taken to leave no files behind.
- The real file system. `mkdtemp`, `readFile`, `writeFile` and `rimraf` are outcomes in a `Script`. A read fails with an injected error, or with ENOENT when the file is missing. A failed write leaves the files unchanged. A failed `rimraf` leaves the workspace as it was. The loader ignores `rimraf`'s error either way.
- The randomness and uniqueness of the `mkdtemp` suffix. The suffix is an input.
- Concurrency between loader invocations, and the asynchronous scheduling of callbacks. The callbacks run in the order the source nests them.
- Locating the binaries: `require.resolve('grpc-tools')`, the `.exe` suffix on Windows, and `os.tmpdir()` (index.js:10-16). These are fixed strings in `Config`.
- Paths.BaseNameWithout: for a path with trailing '/' characters whose base name is a proper suffix of the extension (for example `a/js/` with `.js`), Node keeps the trailing '/' characters (`js/`) and the model gives `js`. The loader only strips `.js` from `<dir>/<stem>_pb.js`, which has no trailing '/'.
- Windows path semantics. `path.join` is `dir + "/" + name`, without normalisation. `path.basename` and `path.dirname` follow Node's POSIX rules.
- `this.async()` (index.js:84) is not recorded as a call. `this.cacheable` is a flag saying whether the context offers it.
- The unused `source` argument of the loader and the unused `noop` helper.
- Generated.RewriteServicesPatches: requires that the message path contains no '$'. `Text.Substitution` models the `$`-pattern expansion that `replace` performs on other paths, but no property of the patch is stated for them.
- Generated.RewriteServicesPatches: does not state that no same-directory reference remains afterwards. The code replaces only the first occurrence, and the replacement could in principle combine with the surrounding text to form a new one.
- Loader.FailureRemovesWorkspaceFirst: promises the workspace is gone only when `rimraf` succeeds, because the loader does not check `rimraf`'s error.
