/**
 * The path arithmetic the loader relies on: Node's POSIX `path.basename`
 * (with and without a suffix), `path.dirname`, `path.join` of a directory
 * and a single file name, and the extension strip done with the regular
 * expression `/\.[^/.]+$/`.
 */
module Paths {
  import opened Wrappers

  /** `path.join(dir, name)` for a directory and a plain file name. */
  function Join(dir: string, name: string): string
  {
    dir + "/" + name
  }

  /** `p` without its trailing '/' characters. */
  function TrimTrailingSlashes(p: string): (r: string)
    ensures r <= p
    ensures r == [] || r[|r| - 1] != '/'
    ensures forall i | |r| <= i < |p| :: p[i] == '/'
  {
    if p != [] && p[|p| - 1] == '/' then TrimTrailingSlashes(p[..|p| - 1]) else p
  }

  /** The text after the last '/' of `p`; all of `p` when it has no '/'. */
  function LastSegment(p: string): (r: string)
    ensures |r| <= |p|
    ensures '/' !in r
    ensures |r| < |p| ==> p[|p| - |r| - 1] == '/'
  {
    if p == [] || p[|p| - 1] == '/' then [] else LastSegment(p[..|p| - 1]) + [p[|p| - 1]]
  }

  /** Node's POSIX `path.basename(p)`: the last segment once trailing separators are dropped. */
  function BaseName(p: string): (r: string)
    ensures '/' !in r
    ensures r == [] <==> forall i | 0 <= i < |p| :: p[i] == '/'
  {
    var q := TrimTrailingSlashes(p);
    assert q == [] || q[|q| - 1] == p[|q| - 1];
    LastSegment(q)
  }

  /**
   * Node's POSIX `path.basename(p, ext)` for a path without a trailing '/':
   * the base name with a trailing `ext` removed, except that a base name
   * equal to `ext` is kept whole, and a path equal to `ext` gives the empty
   * string. (With trailing '/' characters, and a base name that is a proper
   * suffix of `ext`, Node keeps those '/' characters; this model does not.)
   */
  function BaseNameWithout(p: string, ext: string): (r: string)
    ensures r <= BaseName(p)
    ensures ext == [] ==> r == BaseName(p)
  {
    if ext != [] && p == ext then []
    else
      var b := BaseName(p);
      if ext != [] && |ext| < |b| && b[|b| - |ext|..] == ext then b[..|b| - |ext|] else b
  }

  /** Node's POSIX `path.dirname(p)`. */
  function DirName(p: string): (r: string)
    ensures r == "." || r == "/" || r == "//" || r < p
  {
    if p == [] then "."
    else
      var q := TrimTrailingSlashes(p);
      var seg := LastSegment(q);
      // q[k - 1] is the separator in front of the last segment
      var k := |q| - |seg|;
      if seg == [] || k < 2 then (if p[0] == '/' then "/" else ".")
      else if p[0] == '/' && k == 2 then "//"
      else p[..k - 1]
  }

  lemma {:induction false} LastSegmentAfterSeparator(dir: string, name: string)
    requires '/' !in name
    ensures LastSegment(dir + "/" + name) == name
    decreases |name|
  {
    var p := dir + "/" + name;
    if name != [] {
      var init := name[..|name| - 1];
      assert p[..|p| - 1] == dir + "/" + init;
      assert p[|p| - 1] == name[|name| - 1];
      LastSegmentAfterSeparator(dir, init);
      assert name == init + [name[|name| - 1]];
    }
  }

  /** The base name of a joined path is the file name that was joined. */
  lemma BaseNameOfJoin(dir: string, name: string)
    requires name != [] && '/' !in name
    ensures BaseName(Join(dir, name)) == name
  {
    var p := Join(dir, name);
    assert p[|p| - 1] == name[|name| - 1];
    assert TrimTrailingSlashes(p) == p;
    LastSegmentAfterSeparator(dir, name);
  }

  /** The directory of a joined path is the directory that was joined. */
  lemma DirNameOfJoin(dir: string, name: string)
    requires dir != [] && dir[|dir| - 1] != '/'
    requires name != [] && '/' !in name
    ensures DirName(Join(dir, name)) == dir
  {
    var p := Join(dir, name);
    assert p[|p| - 1] == name[|name| - 1];
    assert TrimTrailingSlashes(p) == p;
    LastSegmentAfterSeparator(dir, name);
    assert p[0] == dir[0];
    assert p[..|dir|] == dir;
  }

  /** Holds when the regular expression `/\.[^/.]+$/` matches `s` starting at index `i`. */
  ghost predicate ExtensionAt(s: string, i: int)
  {
    0 <= i && i + 1 < |s| && s[i] == '.' &&
    forall j | i < j < |s| :: s[j] != '/' && s[j] != '.'
  }

  /** The index at which `/\.[^/.]+$/` matches `s`, if it does. */
  function ExtensionStart(s: string): (r: Option<nat>)
    ensures r.Some? ==> ExtensionAt(s, r.value)
    ensures r.None? ==> forall i :: !ExtensionAt(s, i)
  {
    if |s| < 2 || s[|s| - 1] == '/' || s[|s| - 1] == '.' then None
    else if s[|s| - 2] == '.' then Some(|s| - 2)
    else
      var init := s[..|s| - 1];
      var r := ExtensionStart(init);
      assert forall i | ExtensionAt(s, i) :: ExtensionAt(init, i);
      r
  }

  /**
   * `name.replace(/\.[^/.]+$/, '')`: removes a final '.' followed by one or
   * more characters that are neither '/' nor '.'; any other name is kept.
   */
  function StripExtension(name: string): (r: string)
    ensures r <= name
    ensures forall i | ExtensionAt(name, i) :: r == name[..i]
    ensures (forall i :: !ExtensionAt(name, i)) ==> r == name
  {
    match ExtensionStart(name)
    case None => name
    case Some(i) =>
      assert forall k | ExtensionAt(name, k) :: k == i;
      name[..i]
  }

  /** A stem followed by '.' and a dot-free, separator-free extension loses exactly that extension. */
  lemma StripExtensionOf(stem: string, ext: string)
    requires ext != [] && '.' !in ext && '/' !in ext
    ensures StripExtension(stem + "." + ext) == stem
  {
    var s := stem + "." + ext;
    assert forall j | |stem| < j < |s| :: s[j] == ext[j - |stem| - 1];
    assert ExtensionAt(s, |stem|);
  }

  /** A name with no '.' is never changed. */
  lemma StripExtensionNoDot(name: string)
    requires '.' !in name
    ensures StripExtension(name) == name
  {
  }

  /** The cases the loader's naming must get right: no extension, an empty extension, several dots. */
  lemma StripExtensionExamples()
    ensures StripExtension("noext") == "noext"
    ensures StripExtension("file.") == "file."
    ensures StripExtension("a.b.proto") == "a.b"
    ensures StripExtension(".proto") == ""
  {
    StripExtensionNoDot("noext");
    assert !ExtensionAt("file.", 4);
    assert forall i :: !ExtensionAt("file.", i);
    StripExtensionOf("a.b", "proto");
    assert "a.b" + "." + "proto" == "a.b.proto";
    StripExtensionOf("", "proto");
    assert "" + "." + "proto" == ".proto";
  }
}
