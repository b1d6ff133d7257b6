/**
 The few string operations of Python that the package builder relies on:
 prefix and suffix tests, `find`/`rfind` for one character, `join`, `split`
 on one character, and the text of a triple-quoted literal given as lines.
 */
module Strings {

  predicate StartsWith(s: string, prefix: string) {
    |prefix| <= |s| && s[..|prefix|] == prefix
  }

  predicate EndsWith(s: string, suffix: string) {
    |suffix| <= |s| && s[|s| - |suffix|..] == suffix
  }

  lemma EndsWithTrans(s: string, t: string, u: string)
    requires EndsWith(s, t) && EndsWith(t, u)
    ensures EndsWith(s, u)
  {
    assert forall k :: 0 <= k < |u| ==> s[|s| - |u| + k] == t[|t| - |u| + k] == u[k];
  }

  /** No position of `s` holds `c`. */
  predicate Lacks(s: string, c: char) {
    forall k :: 0 <= k < |s| ==> s[k] != c
  }

  lemma LacksNotIn(s: string, c: char)
    ensures Lacks(s, c) <==> c !in s
  {
    if c in s {
      var k :| 0 <= k < |s| && s[k] == c;
    }
  }

  /** `s.find(c)`: the first position of `c` in `s`, or -1 when there is none. */
  function Find(s: string, c: char): (r: int)
    ensures -1 <= r < |s|
    ensures r >= 0 ==> s[r] == c
    ensures forall k :: 0 <= k < |s| && (r < 0 || k < r) ==> s[k] != c
    decreases |s|
  {
    if |s| == 0 then -1
    else if s[0] == c then 0
    else
      var k := Find(s[1..], c);
      if k < 0 then -1 else k + 1
  }

  /** `s.rfind(c)`: the last position of `c` in `s`, or -1 when there is none. */
  function RFind(s: string, c: char): (r: int)
    ensures -1 <= r < |s|
    ensures r >= 0 ==> s[r] == c
    ensures forall k :: r < k < |s| ==> s[k] != c
    decreases |s|
  {
    if |s| == 0 then -1
    else if s[|s| - 1] == c then |s| - 1
    else RFind(s[..|s| - 1], c)
  }

  /** The first occurrence is where the contract of `Find` says it is. */
  lemma FindAt(s: string, c: char, j: int)
    requires 0 <= j < |s| && s[j] == c
    requires forall k :: 0 <= k < j ==> s[k] != c
    ensures Find(s, c) == j
  {
  }

  /** `sep.join(parts)`. */
  function Join(sep: string, parts: seq<string>): string
    decreases |parts|
  {
    if |parts| == 0 then ""
    else if |parts| == 1 then parts[0]
    else parts[0] + sep + Join(sep, parts[1..])
  }

  /** The text of a triple-quoted literal whose lines are `lines`, each ended by a newline. */
  function Unlines(lines: seq<string>): string
    decreases |lines|
  {
    if |lines| == 0 then "" else lines[0] + "\n" + Unlines(lines[1..])
  }

  /** `s.split(c)` with an explicit one-character separator. */
  function Split(s: string, c: char): (r: seq<string>)
    ensures |r| >= 1
    decreases |s|
  {
    var i := Find(s, c);
    if i < 0 then [s] else [s[..i]] + Split(s[i + 1..], c)
  }

  lemma SplitWithoutSeparator(s: string, c: char)
    requires c !in s
    ensures Split(s, c) == [s]
  {
    assert forall k :: 0 <= k < |s| ==> s[k] in s;
  }

  /** Splitting at a separator placed between two texts splits each text on its own. */
  lemma {:induction false} SplitConcat(a: string, b: string, c: char)
    ensures Split(a + [c] + b, c) == Split(a, c) + Split(b, c)
    decreases |a|
  {
    var s := a + [c] + b;
    var i := Find(a, c);
    if i < 0 {
      FindAt(s, c, |a|);
      assert s[..|a|] == a;
      assert s[|a| + 1..] == b;
    } else {
      FindAt(s, c, i);
      assert s[..i] == a[..i];
      assert s[i + 1..] == a[i + 1..] + [c] + b;
      SplitConcat(a[i + 1..], b, c);
    }
  }

  /** A text without the separator, then the separator, splits off as one part. */
  lemma SplitFirstLine(first: string, tail: string, c: char)
    requires c !in first
    ensures Split(first + [c] + tail, c) == [first] + Split(tail, c)
  {
    SplitConcat(first, tail, c);
    SplitWithoutSeparator(first, c);
  }

  /** Splitting a joined list gives the list back when no part holds the separator. */
  lemma {:induction false} SplitJoin(parts: seq<string>, c: char)
    requires |parts| >= 1
    requires forall k :: 0 <= k < |parts| ==> c !in parts[k]
    ensures Split(Join([c], parts), c) == parts
    decreases |parts|
  {
    if |parts| == 1 {
      SplitWithoutSeparator(parts[0], c);
    } else {
      var rest := parts[1..];
      assert forall k :: 0 <= k < |rest| ==> rest[k] == parts[k + 1];
      SplitJoin(rest, c);
      assert Join([c], parts) == parts[0] + [c] + Join([c], rest);
      SplitFirstLine(parts[0], Join([c], rest), c);
      assert parts == [parts[0]] + rest;
    }
  }

  /** The lines of a triple-quoted literal, read back with `split("\n")`, followed by the empty
      text after the final newline. */
  lemma {:induction false} SplitUnlines(lines: seq<string>)
    requires forall k :: 0 <= k < |lines| ==> '\n' !in lines[k]
    ensures Split(Unlines(lines), '\n') == lines + [""]
    decreases |lines|
  {
    if |lines| == 0 {
      SplitWithoutSeparator("", '\n');
    } else {
      var first := lines[0];
      var rest := lines[1..];
      assert forall k :: 0 <= k < |rest| ==> rest[k] == lines[k + 1];
      SplitUnlines(rest);
      assert Unlines(lines) == first + ['\n'] + Unlines(rest);
      SplitFirstLine(first, Unlines(rest), '\n');
      assert lines + [""] == [first] + (rest + [""]);
    }
  }
}
