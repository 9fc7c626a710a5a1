/**
 * The JavaScript string operations the loader applies to generated code:
 * `indexOf`, `replace` with a string pattern (first occurrence only, with
 * `$`-pattern expansion in the replacement), the global backslash
 * replacement `replace(/\\/g, '/')`, and splitting text into lines.
 */
module Text {
  import opened Wrappers

  /** Holds when `pat` occurs in `s` starting at index `i`. */
  ghost predicate OccursAt(s: string, pat: string, i: int)
  {
    0 <= i && i + |pat| <= |s| && s[i..i + |pat|] == pat
  }

  /** Holds when `i` is the first index at which `pat` occurs in `s`. */
  ghost predicate FirstOccurrence(s: string, pat: string, i: int)
  {
    OccursAt(s, pat, i) && forall j | 0 <= j < i :: !OccursAt(s, pat, j)
  }

  /** `s.indexOf(pat, from)`: the first index at or after `from` where `pat` occurs. */
  function IndexOfFrom(s: string, pat: string, from: nat): (r: Option<nat>)
    ensures r.Some? ==> from <= r.value && OccursAt(s, pat, r.value)
    ensures r.Some? ==> forall j | from <= j < r.value :: !OccursAt(s, pat, j)
    ensures r.None? ==> forall j | from <= j :: !OccursAt(s, pat, j)
    decreases |s| - from
  {
    if from + |pat| > |s| then None
    else if s[from..from + |pat|] == pat then Some(from)
    else IndexOfFrom(s, pat, from + 1)
  }

  /**
   * The replacement text `replace` inserts for a match of a string pattern:
   * `$$` gives '$', `$&` the matched text, `` $` `` the text before the match
   * and `$'` the text after it; every other character, and every other '$',
   * is copied as it is.
   */
  function Substitution(repl: string, matched: string, before: string, after: string): (r: string)
    ensures '$' !in repl ==> r == repl
    decreases |repl|
  {
    if repl == [] then []
    else if repl[0] == '$' && |repl| >= 2 && repl[1] in "$&`'" then
      var expanded :=
        if repl[1] == '$' then "$"
        else if repl[1] == '&' then matched
        else if repl[1] == '`' then before
        else after;
      expanded + Substitution(repl[2..], matched, before, after)
    else
      [repl[0]] + Substitution(repl[1..], matched, before, after)
  }

  /** `s.replace(pat, repl)` with a string `pat`: only the first occurrence is replaced. */
  function ReplaceFirst(s: string, pat: string, repl: string): (r: string)
    ensures (forall j :: !OccursAt(s, pat, j)) ==> r == s
    ensures forall i | FirstOccurrence(s, pat, i) ::
              s[..i] <= r && |s| - (i + |pat|) <= |r| && r[|r| - (|s| - (i + |pat|))..] == s[i + |pat|..]
  {
    match IndexOfFrom(s, pat, 0)
    case None => s
    case Some(i) => s[..i] + Substitution(repl, pat, s[..i], s[i + |pat|..]) + s[i + |pat|..]
  }

  /** With no occurrence of the pattern, `replace` returns its input unchanged. */
  lemma ReplaceFirstAbsent(s: string, pat: string, repl: string)
    requires forall j :: !OccursAt(s, pat, j)
    ensures ReplaceFirst(s, pat, repl) == s
  {
  }

  /**
   * A `$`-free replacement takes the place of the first occurrence only:
   * the text before it and everything after it, later occurrences included,
   * are kept.
   */
  lemma ReplaceFirstAt(s: string, pat: string, repl: string, i: nat)
    requires FirstOccurrence(s, pat, i)
    requires '$' !in repl
    ensures ReplaceFirst(s, pat, repl) == s[..i] + repl + s[i + |pat|..]
  {
    var k := IndexOfFrom(s, pat, 0);
    assert k.Some?;
    assert !(k.value < i) && !(i < k.value);
  }

  /** `s.replace(/\\/g, '/')`: every backslash becomes a forward slash. */
  function ForwardSlashes(s: string): (r: string)
    ensures |r| == |s|
    ensures forall i | 0 <= i < |s| :: r[i] == if s[i] == '\\' then '/' else s[i]
  {
    if s == [] then [] else [if s[0] == '\\' then '/' else s[0]] + ForwardSlashes(s[1..])
  }

  /**
   * The normalised text has no backslash, keeps every other character and
   * its length, and normalising it again changes nothing.
   */
  lemma ForwardSlashesNormalises(s: string)
    ensures '\\' !in ForwardSlashes(s)
    ensures '\\' !in s ==> ForwardSlashes(s) == s
    ensures ForwardSlashes(ForwardSlashes(s)) == ForwardSlashes(s)
    ensures forall c | c != '/' && c != '\\' :: (c in ForwardSlashes(s) <==> c in s)
  {
    var r := ForwardSlashes(s);
    assert '\\' !in r by {
      forall i | 0 <= i < |r| ensures r[i] != '\\' { }
    }
    if '\\' !in s {
      assert forall i | 0 <= i < |s| :: r[i] == s[i];
    }
    assert forall i | 0 <= i < |r| :: ForwardSlashes(r)[i] == r[i];
    forall c | c != '/' && c != '\\' ensures c in r <==> c in s {
      if c in r {
        var i :| 0 <= i < |r| && r[i] == c;
        assert s[i] == c;
      }
      if c in s {
        var i :| 0 <= i < |s| && s[i] == c;
        assert r[i] == c;
      }
    }
  }

  /** `s.split('\n')`: the pieces of `s` between line feeds. */
  function Lines(s: string): (r: seq<string>)
    ensures |r| >= 1
    decreases |s|
  {
    if s == [] then [[]]
    else if s[0] == '\n' then [[]] + Lines(s[1..])
    else
      var rest := Lines(s[1..]);
      [[s[0]] + rest[0]] + rest[1..]
  }

  /** Text without a line feed is a single line. */
  lemma {:induction false} LinesOfOneLine(s: string)
    requires '\n' !in s
    ensures Lines(s) == [s]
    decreases |s|
  {
    if s != [] {
      LinesOfOneLine(s[1..]);
      assert [s[0]] + s[1..] == s;
    }
  }

  /** A line feed after a line-feed-free prefix ends the first line there. */
  lemma {:induction false} LinesAfter(line: string, rest: string)
    requires '\n' !in line
    ensures Lines(line + "\n" + rest) == [line] + Lines(rest)
    decreases |line|
  {
    var s := line + "\n" + rest;
    if line == [] {
      assert s[1..] == rest;
    } else {
      assert s[0] == line[0];
      assert s[1..] == line[1..] + "\n" + rest;
      LinesAfter(line[1..], rest);
      assert [line[0]] + line[1..] == line;
    }
  }
}
