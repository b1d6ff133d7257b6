/**
 POSIX path arithmetic as the builder uses it: `os.path.basename`,
 `os.path.join` of two components and `os.path.splitext`. Paths are plain
 strings with `/` as the only separator.
 */
module Paths {
  import opened Strings

  /** `os.path.basename(p)`: everything after the last `/`. */
  function Basename(p: string): string
  {
    p[RFind(p, '/') + 1..]
  }

  /** The basename is a suffix of the path without `/`, and it is all of
      the path or follows a `/`. */
  lemma BasenameShape(p: string)
    ensures var r := Basename(p);
      && Lacks(r, '/')
      && EndsWith(p, r)
      && (|r| < |p| ==> p[|p| - |r| - 1] == '/')
  {
  }

  /** What is left of `p` once its basename is removed (the head of `os.path.split`,
      trailing slashes kept). */
  function Head(p: string): string
  {
    p[..|p| - |Basename(p)|]
  }

  /** A name without `/` is its own basename. */
  lemma BasenameOfName(name: string)
    requires Lacks(name, '/')
    ensures Basename(name) == name
  {
    assert RFind(name, '/') == -1;
  }

  /** `os.path.join(a, b)` for two components. */
  function Join(a: string, b: string): string
  {
    if StartsWith(b, "/") then b
    else if a == "" || EndsWith(a, "/") then a + b
    else a + "/" + b
  }

  /** The joined path ends with the second component, and starts with the
      first unless the second is absolute. */
  lemma JoinShape(a: string, b: string)
    ensures EndsWith(Join(a, b), b)
    ensures !StartsWith(b, "/") ==> StartsWith(Join(a, b), a)
  {
  }

  /** Joining a directory with a file name that holds no `/` is undone by
      `basename`: the file name comes back, and the rest is the directory
      with a separator at its end. */
  lemma JoinSplits(dir: string, name: string)
    requires Lacks(name, '/')
    ensures Join(dir, name) == (if dir == "" || EndsWith(dir, "/") then dir else dir + "/") + name
    ensures Basename(Join(dir, name)) == name
    ensures Head(Join(dir, name)) == if dir == "" || EndsWith(dir, "/") then dir else dir + "/"
  {
    var p := Join(dir, name);
    var h := if dir == "" || EndsWith(dir, "/") then dir else dir + "/";
    assert !StartsWith(name, "/") by {
      if |name| > 0 {
        assert name[..1][0] == name[0];
      }
    }
    assert p == h + name;
    assert |h| > 0 ==> p[|h| - 1] == '/' by {
      if |h| > 0 && h == dir {
        assert dir[|dir| - 1..][0] == dir[|dir| - 1];
      }
    }
    assert RFind(p, '/') == |h| - 1 by {
      assert forall k :: |h| <= k < |p| ==> p[k] == name[k - |h|];
    }
    assert Basename(p) == p[|h|..];
  }

  /** Every position of `s` from `lo` up to, not including, `hi` holds a dot. */
  predicate DotsBetween(s: string, lo: int, hi: int)
  {
    forall k :: lo <= k < hi && 0 <= k < |s| ==> s[k] == '.'
  }

  /** `os.path.splitext(p)`: the extension is the text from the last `.` of
      the last component, unless everything before that `.` in the
      component is dots (so `.bashrc` and `..py` have no extension). */
  function Splitext(p: string): (r: (string, string))
    ensures r.0 + r.1 == p
    ensures r.1 == "" || (r.1[0] == '.' && Lacks(r.1, '/') && Lacks(r.1[1..], '.'))
    ensures r.1 != "" ==> !DotsBetween(p, RFind(p, '/') + 1, |r.0|)
    ensures r.1 == "" ==>
      forall i :: RFind(p, '/') < i < |p| && p[i] == '.' ==> DotsBetween(p, RFind(p, '/') + 1, i)
  {
    var sepIndex := RFind(p, '/');
    var dotIndex := RFind(p, '.');
    if dotIndex > sepIndex && !DotsBetween(p, sepIndex + 1, dotIndex) then
      ExtensionShape(p, sepIndex, dotIndex);
      (p[..dotIndex], p[dotIndex..])
    else
      (p, "")
  }

  /** Text after the last `.` of the last component holds neither `/` nor `.`. */
  lemma ExtensionShape(p: string, sepIndex: int, dotIndex: int)
    requires -1 <= sepIndex < dotIndex < |p|
    requires forall k :: sepIndex < k < |p| ==> p[k] != '/'
    requires forall k :: dotIndex < k < |p| ==> p[k] != '.'
    ensures Lacks(p[dotIndex..], '/') && Lacks(p[dotIndex + 1..], '.')
  {
  }

  /** The module name of a copied file: its name without the extension. */
  function ModuleName(fileName: string): string
  {
    Splitext(fileName).0
  }

  /** A character absent from a path is absent from the module name derived
      from it. */
  lemma ModuleNameLacks(path: string, c: char)
    requires Lacks(path, c)
    ensures Lacks(ModuleName(Basename(path)), c)
  {
    var b := Basename(path);
    assert forall k :: 0 <= k < |b| ==> b[k] == path[RFind(path, '/') + 1 + k];
    var parts := Splitext(b);
    assert forall k :: 0 <= k < |parts.0| ==> parts.0[k] == (parts.0 + parts.1)[k];
  }

  /** A `.py` suffix, position by position. */
  lemma PySuffix(s: string)
    ensures EndsWith(s, ".py") <==> |s| >= 3 && s[|s| - 3] == '.' && s[|s| - 2] == 'p' && s[|s| - 1] == 'y'
  {
    if |s| >= 3 {
      var t := s[|s| - 3..];
      assert t[0] == s[|s| - 3] && t[1] == s[|s| - 2] && t[2] == s[|s| - 1];
    }
  }

  /** The basename of a `.py` path is itself a `.py` name. */
  lemma BasenameOfPyPath(path: string)
    requires EndsWith(path, ".py")
    ensures EndsWith(Basename(path), ".py")
  {
    var n := |path|;
    var b := Basename(path);
    PySuffix(path);
    assert |b| >= 3;
    assert forall k :: 0 <= k < |b| ==> b[k] == path[n - |b| + k];
    PySuffix(b);
  }

  /** For a `.py` file name, the module name is the name with `.py` removed,
      except when everything in front of `.py` is dots: then `splitext`
      finds no extension and the whole name is kept. */
  lemma ModuleNameOfPyName(b: string)
    requires Lacks(b, '/') && EndsWith(b, ".py")
    ensures if DotsBetween(b, 0, |b| - 3) then ModuleName(b) == b else ModuleName(b) + ".py" == b
  {
    PySuffix(b);
    assert RFind(b, '/') == -1;
    assert RFind(b, '.') == |b| - 3;
  }

  /** The module name derived from a `.py` path: its basename without `.py`,
      unless everything in front of `.py` is dots. */
  lemma ModuleNameOfPyFile(path: string)
    requires EndsWith(path, ".py")
    ensures EndsWith(Basename(path), ".py")
    ensures var b := Basename(path);
      if DotsBetween(b, 0, |b| - 3) then ModuleName(b) == b else ModuleName(b) + ".py" == b
  {
    BasenameOfPyPath(path);
    ModuleNameOfPyName(Basename(path));
  }
}
