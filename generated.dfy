/**
 * The pure text of the loader: the names of the two files the schema
 * compiler writes, the patch that turns the service file's local require of
 * the message file into a webpack `!!` request, the module text handed back
 * to webpack, and the compiler's argument vector.
 */
module Generated {
  import opened Wrappers
  import opened Paths
  import opened Text

  /** The generated message-binding file and service-binding file. */
  datatype Artifacts = Artifacts(messages: string, services: string)

  /** The input file's base name without its last extension. */
  function ArtifactStem(srcPath: string): (r: string)
    ensures '/' !in r
  {
    StripExtension(BaseName(srcPath))
  }

  /** Where the compiler's two outputs for `srcPath` land inside the workspace `dir`. */
  function ArtifactPaths(srcPath: string, dir: string): Artifacts
  {
    Named(dir, ArtifactStem(srcPath))
  }

  /** The artifacts for a given stem: `<stem>_pb.js` and `<stem>_grpc_pb.js` in `dir`. */
  function Named(dir: string, stem: string): Artifacts
  {
    Artifacts(Join(dir, stem + "_pb.js"), Join(dir, stem + "_grpc_pb.js"))
  }

  /**
   * Both artifacts sit directly in the workspace, named `<stem>_pb.js` and
   * `<stem>_grpc_pb.js`, and the message file's module name (its base name
   * without `.js`) is `<stem>_pb`.
   */
  lemma ArtifactNames(dir: string, stem: string)
    requires '/' !in stem
    ensures BaseName(Named(dir, stem).messages) == stem + "_pb.js"
    ensures BaseName(Named(dir, stem).services) == stem + "_grpc_pb.js"
    ensures BaseNameWithout(Named(dir, stem).messages, ".js") == stem + "_pb"
  {
    var m, g := stem + "_pb.js", stem + "_grpc_pb.js";
    assert '/' !in m && '/' !in g;
    BaseNameOfJoin(dir, m);
    BaseNameOfJoin(dir, g);
    assert m[|m| - 3..] == ".js";
    assert m[..|m| - 3] == stem + "_pb";
    assert |Join(dir, m)| > 3;
  }

  /** For a workspace path without a trailing '/', both artifacts have that workspace as directory. */
  lemma ArtifactsInWorkspace(dir: string, stem: string)
    requires dir != [] && dir[|dir| - 1] != '/'
    requires '/' !in stem
    ensures DirName(Named(dir, stem).messages) == dir
    ensures DirName(Named(dir, stem).services) == dir
  {
    var m, g := stem + "_pb.js", stem + "_grpc_pb.js";
    assert '/' !in m && '/' !in g;
    DirNameOfJoin(dir, m);
    DirNameOfJoin(dir, g);
  }

  /** The same-directory require of the message module that the service file contains. */
  function LocalRequire(messagePath: string): string
  {
    "require('./" + BaseNameWithout(messagePath, ".js") + ".js');"
  }

  /** The webpack request for the message file: `!!` and the path with '/' separators. */
  function BundlerRequire(messagePath: string): (r: string)
    ensures '\\' !in r
  {
    ForwardSlashesNormalises(messagePath);
    "require('!!" + ForwardSlashes(messagePath) + "');"
  }

  /** The patch applied to the service file's text before it is written back. */
  function RewriteServices(source: string, messagePath: string): string
  {
    ReplaceFirst(source, LocalRequire(messagePath), BundlerRequire(messagePath))
  }

  /** The literal `require('./<stem>_pb.js');` statement the gRPC plugin writes for the message module. */
  function MessageRequire(stem: string): string
  {
    "require('./" + stem + "_pb.js');"
  }

  /** The local require the rewrite looks for is the plugin's require of `./<stem>_pb.js`. */
  lemma LocalRequireOfMessages(dir: string, stem: string)
    requires '/' !in stem
    ensures LocalRequire(Named(dir, stem).messages) == MessageRequire(stem)
  {
    ArtifactNames(dir, stem);
    assert "require('./" + (stem + "_pb") + ".js');" == "require('./" + stem + "_pb.js');";
  }

  /** A `$`-free path gives a `$`-free request, so `replace` inserts it literally. */
  lemma BundlerRequireLiteral(messagePath: string)
    requires '$' !in messagePath
    ensures '$' !in BundlerRequire(messagePath)
  {
    ForwardSlashesNormalises(messagePath);
    assert '$' !in ForwardSlashes(messagePath);
  }

  /**
   * When the service file contains the plugin's require of `./<stem>_pb.js`,
   * its first occurrence becomes the `!!` request for the message file, and
   * everything before and after it, later occurrences included, is kept.
   */
  lemma RewriteServicesPatches(source: string, dir: string, stem: string, i: nat)
    requires '/' !in stem
    requires FirstOccurrence(source, MessageRequire(stem), i)
    requires '$' !in Named(dir, stem).messages
    ensures var m := Named(dir, stem).messages;
            RewriteServices(source, m)
            == source[..i] + BundlerRequire(m) + source[i + |MessageRequire(stem)|..]
  {
    var m := Named(dir, stem).messages;
    LocalRequireOfMessages(dir, stem);
    BundlerRequireLiteral(m);
    ReplaceFirstAt(source, LocalRequire(m), BundlerRequire(m), i);
  }

  /** A service file without the plugin's require is written back unchanged. */
  lemma RewriteServicesNoRequire(source: string, dir: string, stem: string)
    requires '/' !in stem
    requires forall j :: !OccursAt(source, MessageRequire(stem), j)
    ensures RewriteServices(source, Named(dir, stem).messages) == source
  {
    var m := Named(dir, stem).messages;
    LocalRequireOfMessages(dir, stem);
    ReplaceFirstAbsent(source, LocalRequire(m), BundlerRequire(m));
  }

  /** One re-export statement of the generated module, with its indentation. */
  function ExportLine(name: string, path: string): string
  {
    "      exports." + name + " = require('!!" + path + "');"
  }

  /**
   * The module source handed back to webpack: the template literal, a line
   * feed, the `services` re-export, a line feed, the `messages` re-export, a
   * line feed and two spaces.
   */
  function GenerateOutput(messagePath: string, servicePath: string): string
  {
    "\n" + ExportLine("services", servicePath) + "\n" + ExportLine("messages", messagePath) + "\n" + "  "
  }

  /**
   * The module is four lines: an empty one, the `services` re-export of the
   * service path, the `messages` re-export of the message path, and the
   * closing indentation; the paths appear as given, separators untouched.
   */
  lemma OutputLayout(messagePath: string, servicePath: string)
    requires '\n' !in messagePath && '\n' !in servicePath
    ensures Lines(GenerateOutput(messagePath, servicePath))
            == ["", ExportLine("services", servicePath), ExportLine("messages", messagePath), "  "]
  {
    var services, messages := ExportLine("services", servicePath), ExportLine("messages", messagePath);
    ExportLineIsOneLine("services", servicePath);
    ExportLineIsOneLine("messages", messagePath);
    var tail := messages + "\n" + "  ";
    var body := services + "\n" + tail;
    assert GenerateOutput(messagePath, servicePath) == [] + "\n" + body;
    LinesOfOneLine("  ");
    LinesAfter(messages, "  ");
    LinesAfter(services, tail);
    LinesAfter([], body);
  }

  /** A re-export statement of line-feed-free names is a single line. */
  lemma ExportLineIsOneLine(name: string, path: string)
    requires '\n' !in name && '\n' !in path
    ensures '\n' !in ExportLine(name, path)
  {
    var head, mid, end := "      exports.", " = require('!!", "');";
    assert '\n' !in head && '\n' !in mid && '\n' !in end;
    assert ExportLine(name, path) == head + name + mid + path + end;
  }

  /**
   * For `greeter.proto` the artifacts are `greeter_pb.js` and
   * `greeter_grpc_pb.js` in the workspace, and the module re-exports
   * `services` and `messages` from them in that order.
   */
  lemma GreeterScenario(srcDir: string, dir: string)
    requires '\n' !in dir
    ensures ArtifactPaths(Join(srcDir, "greeter.proto"), dir)
            == Artifacts(Join(dir, "greeter_pb.js"), Join(dir, "greeter_grpc_pb.js"))
    ensures Lines(GenerateOutput(Join(dir, "greeter_pb.js"), Join(dir, "greeter_grpc_pb.js")))
            == ["", ExportLine("services", Join(dir, "greeter_grpc_pb.js")),
                ExportLine("messages", Join(dir, "greeter_pb.js")), "  "]
  {
    GreeterStem(srcDir);
    assert "greeter" + "_pb.js" == "greeter_pb.js";
    assert "greeter" + "_grpc_pb.js" == "greeter_grpc_pb.js";
    OutputLayout(Join(dir, "greeter_pb.js"), Join(dir, "greeter_grpc_pb.js"));
  }

  lemma GreeterStem(srcDir: string)
    ensures ArtifactStem(Join(srcDir, "greeter.proto")) == "greeter"
  {
    BaseNameOfJoin(srcDir, "greeter.proto");
    StripExtensionOf("greeter", "proto");
    assert "greeter" + "." + "proto" == "greeter.proto";
  }

  /** A `--name=value` command-line argument. */
  function Flag(name: string, value: string): string
  {
    "--" + name + "=" + value
  }

  /** The value of a `--name=value` argument, if `arg` is one. */
  function FlagValue(arg: string, name: string): Option<string>
  {
    var key := "--" + name + "=";
    if |key| <= |arg| && arg[..|key|] == key then Some(arg[|key|..]) else None
  }

  /** Reading a flag back gives the value it was built from. */
  lemma FlagRoundTrip(name: string, value: string)
    ensures FlagValue(Flag(name, value), name) == Some(value)
  {
    var key := "--" + name + "=";
    assert Flag(name, value) == key + value;
    assert (key + value)[..|key|] == key;
    assert (key + value)[|key|..] == value;
  }

  /**
   * The arguments given to `protoc`, in order: the include root is the
   * input's directory, messages go to the workspace as CommonJS with binary
   * encoding, services go to the workspace, the gRPC plugin is wired in, and
   * the input file is the only positional argument, last.
   */
  function ProtocArgs(resourcePath: string, dir: string, plugin: string): (r: seq<string>)
    ensures |r| == 5 && r[4] == resourcePath
    ensures FlagValue(r[0], "proto_path") == Some(DirName(resourcePath))
    ensures FlagValue(r[1], "js_out") == Some("import_style=commonjs,binary:" + dir)
    ensures FlagValue(r[2], "grpc_out") == Some(dir)
    ensures FlagValue(r[3], "plugin") == Some("protoc-gen-grpc=" + plugin)
  {
    FlagRoundTrip("proto_path", DirName(resourcePath));
    FlagRoundTrip("js_out", "import_style=commonjs,binary:" + dir);
    FlagRoundTrip("grpc_out", dir);
    FlagRoundTrip("plugin", "protoc-gen-grpc=" + plugin);
    [ Flag("proto_path", DirName(resourcePath)),
      Flag("js_out", "import_style=commonjs,binary:" + dir),
      Flag("grpc_out", dir),
      Flag("plugin", "protoc-gen-grpc=" + plugin),
      resourcePath ]
  }

  /** For an input `srcDir/file`, the include root handed to `protoc` is exactly `srcDir`. */
  lemma ProtocIncludeRoot(srcDir: string, file: string, dir: string, plugin: string)
    requires srcDir != [] && srcDir[|srcDir| - 1] != '/'
    requires file != [] && '/' !in file
    ensures FlagValue(ProtocArgs(Join(srcDir, file), dir, plugin)[0], "proto_path") == Some(srcDir)
  {
    DirNameOfJoin(srcDir, file);
  }
}
