/**
 `create_package`: validate the configuration, then plan the package
 directory, the `src` folder, one copy per accepted source file, and the
 three generated files.

 The file system is an abstract set of paths that name existing regular
 files; two different path strings name different files. A run does not
 touch it: it returns the plan of what it creates, copies and writes, in
 order, or the error that stops it together with what was done before.
 */
module Builder {
  import opened Strings
  import Paths
  import opened Configuration
  import opened Templates

  datatype Copy = Copy(source: string, dest: string)

  /** Writing a generated file; the text written is `Text(file)`. */
  datatype Write = Write(path: string, file: Generated)

  /** The directories a run makes sure exist (creating an existing one is not
      an error), the files it copies and the files it writes, each in order. */
  datatype Plan = Plan(dirs: seq<string>, copies: seq<Copy>, writes: seq<Write>)

  const NoEffects := Plan([], [], [])

  /** A finished run, or the error that stopped it and what it had done. */
  datatype Outcome = Built(plan: Plan) | Aborted(error: Error, done: Plan)

  /** `<name>/src`. */
  function SourceFolder(name: string): string
  {
    Paths.Join(name, "src")
  }

  /** Where a source file is copied: the source folder joined with its basename. */
  function Destination(src: string, path: string): string
  {
    Paths.Join(src, Paths.Basename(path))
  }

  /** The test an entry of `files` must pass to be copied: it names an
      existing regular file and ends in `.py`. */
  predicate IsPythonFile(files: set<string>, path: string)
  {
    path in files && EndsWith(path, ".py")
  }

  /** Some copy made so far writes `path`. */
  predicate CopiedTo(copies: seq<Copy>, path: string)
  {
    exists k :: 0 <= k < |copies| && copies[k].dest == path
  }

  /** Whether the copy loop is still going, or stopped on an entry that is
      already its own destination. */
  datatype Progress = Copying | StoppedAt(path: string)

  /** The state of the copy loop: the copies made, the regular files that
      exist by now, and its progress. The module names the loop collects are
      those of the copies made (see `ModulesOf`). */
  datatype Scan = Scan(copies: seq<Copy>, files: set<string>, progress: Progress)

  /** One turn of the copy loop. An entry that fails the test is skipped.
      An accepted entry whose destination is the entry itself makes the copy
      fail and ends the loop. Otherwise the file is copied, which also makes
      the destination an existing regular file for the entries after it. */
  function Step(s: Scan, src: string, path: string): Scan
  {
    if s.progress.StoppedAt? || !IsPythonFile(s.files, path) then s
    else
      var dest := Destination(src, path);
      if dest == path then s.(progress := StoppedAt(path))
      else Scan(s.copies + [Copy(path, dest)], s.files + {dest}, Copying)
  }

  /** What the copy loop keeps true of its state after any number of
      entries `paths`: every copy comes from an entry ending in `.py`, goes
      to `<src>/<basename>`, and is not a copy of a file onto itself; the
      regular files are those that existed before the run
      plus the copy destinations; and a stop is on an accepted entry that
      is its own destination. */
  ghost predicate Consistent(s: Scan, paths: seq<string>, existing: set<string>, src: string)
  {
    && (forall k :: 0 <= k < |s.copies| ==>
          && s.copies[k].source in paths
          && EndsWith(s.copies[k].source, ".py")
          && s.copies[k].dest == Destination(src, s.copies[k].source)
          && s.copies[k].dest != s.copies[k].source)
    && (forall p :: p in s.files <==> p in existing || CopiedTo(s.copies, p))
    && (s.progress.StoppedAt? ==>
          var p := s.progress.path;
          p in paths && IsPythonFile(s.files, p) && Destination(src, p) == p)
  }

  /** Each turn of the loop keeps the state consistent. */
  lemma StepKeepsConsistent(s: Scan, paths: seq<string>, path: string, existing: set<string>, src: string)
    requires Consistent(s, paths, existing, src)
    ensures Consistent(Step(s, src, path), paths + [path], existing, src)
  {
    var all := paths + [path];
    assert forall p :: p in paths ==> p in all;
    assert path in all;
    if s.progress.StoppedAt? || !IsPythonFile(s.files, path) {
      assert Step(s, src, path) == s;
    } else if Destination(src, path) == path {
      assert Step(s, src, path) == s.(progress := StoppedAt(path));
    } else {
      AppendKeepsConsistent(s, paths, path, existing, src);
    }
  }

  /** The copying case of `StepKeepsConsistent`. */
  lemma AppendKeepsConsistent(s: Scan, paths: seq<string>, path: string, existing: set<string>, src: string)
    requires Consistent(s, paths, existing, src)
    requires s.progress == Copying && IsPythonFile(s.files, path)
    requires Destination(src, path) != path
    ensures Consistent(Step(s, src, path), paths + [path], existing, src)
  {
    var dest := Destination(src, path);
    var r := Step(s, src, path);
    assert r == Scan(s.copies + [Copy(path, dest)], s.files + {dest}, Copying);
    var all := paths + [path];
    assert forall p :: p in paths ==> p in all;
    assert path in all;
    CopiedToAppend(s.copies, Copy(path, dest));
    assert forall k :: 0 <= k < |s.copies| ==> r.copies[k] == s.copies[k];
    assert r.copies[|s.copies|] == Copy(path, dest);
  }

  /** The copy loop over `paths`, starting from the regular files `existing`. */
  function ScanFiles(paths: seq<string>, existing: set<string>, src: string): (s: Scan)
    ensures |s.copies| <= |paths|
    ensures existing <= s.files
    decreases |paths|
  {
    if |paths| == 0 then Scan([], existing, Copying)
    else
      var n := |paths| - 1;
      Step(ScanFiles(paths[..n], existing, src), src, paths[n])
  }

  /** The loop keeps its state consistent over any entries. */
  lemma {:induction false} ScanConsistent(paths: seq<string>, existing: set<string>, src: string)
    ensures Consistent(ScanFiles(paths, existing, src), paths, existing, src)
    decreases |paths|
  {
    if |paths| > 0 {
      var n := |paths| - 1;
      ScanConsistent(paths[..n], existing, src);
      StepKeepsConsistent(ScanFiles(paths[..n], existing, src), paths[..n], paths[n], existing, src);
      assert paths[..n] + [paths[n]] == paths;
    }
  }

  lemma CopiedToAppend(copies: seq<Copy>, c: Copy)
    ensures forall p :: CopiedTo(copies + [c], p) <==> CopiedTo(copies, p) || p == c.dest
  {
    forall p | CopiedTo(copies + [c], p) && p != c.dest
      ensures CopiedTo(copies, p)
    {
      var k :| 0 <= k < |copies + [c]| && (copies + [c])[k].dest == p;
      assert copies[k].dest == p;
    }
    forall p | CopiedTo(copies, p)
      ensures CopiedTo(copies + [c], p)
    {
      var k :| 0 <= k < |copies| && copies[k].dest == p;
      assert (copies + [c])[k].dest == p;
    }
    assert (copies + [c])[|copies|].dest == c.dest;
  }

  /** The loop over non-empty entries is one more turn after the loop over
      all but the last. */
  lemma ScanLast(paths: seq<string>, existing: set<string>, src: string)
    requires |paths| > 0
    ensures ScanFiles(paths, existing, src)
         == Step(ScanFiles(paths[..|paths| - 1], existing, src), src, paths[|paths| - 1])
  {
  }

  /** Entry `i` is one more turn after the entries before it. */
  lemma ScanNext(paths: seq<string>, existing: set<string>, src: string, i: nat)
    requires i < |paths|
    ensures ScanFiles(paths[..i + 1], existing, src) == Step(ScanFiles(paths[..i], existing, src), src, paths[i])
  {
    assert paths[..i + 1][..i] == paths[..i];
    ScanLast(paths[..i + 1], existing, src);
  }

  /** A turn of the loop only ever adds to the copies. */
  lemma StepExtends(s: Scan, src: string, path: string)
    ensures s.copies <= Step(s, src, path).copies
  {
  }

  /** The loop's result on a prefix of the entries is where it starts on the
      rest: copies come out in entry order. */
  lemma {:induction false} ScanPrefix(paths: seq<string>, existing: set<string>, src: string, i: nat)
    requires i <= |paths|
    ensures var part := ScanFiles(paths[..i], existing, src);
      var whole := ScanFiles(paths, existing, src);
      part.copies <= whole.copies
    decreases |paths| - i
  {
    if i < |paths| {
      var n := |paths| - 1;
      assert paths[..n][..i] == paths[..i];
      ScanPrefix(paths[..n], existing, src, i);
      ScanLast(paths, existing, src);
      StepExtends(ScanFiles(paths[..n], existing, src), src, paths[n]);
    } else {
      assert paths[..i] == paths;
    }
  }

  /** Once the loop stops, later entries change nothing. */
  lemma {:induction false} StopIsFinal(paths: seq<string>, existing: set<string>, src: string, i: nat)
    requires i <= |paths|
    requires ScanFiles(paths[..i], existing, src).progress.StoppedAt?
    ensures ScanFiles(paths, existing, src) == ScanFiles(paths[..i], existing, src)
    decreases |paths| - i
  {
    if i < |paths| {
      var n := |paths| - 1;
      assert paths[..n][..i] == paths[..i];
      StopIsFinal(paths[..n], existing, src, i);
      ScanLast(paths, existing, src);
    } else {
      assert paths[..i] == paths;
    }
  }

  /** What the loop does with entry `i`, in terms of the files that existed
      before the run and the copies made before that entry: the entry is
      available if it existed or an earlier copy created it. An available
      `.py` entry is copied to its destination unless it is its own
      destination, which stops the loop; any other entry is skipped. */
  lemma EntryDecision(paths: seq<string>, existing: set<string>, src: string, i: nat)
    requires i < |paths|
    requires ScanFiles(paths[..i], existing, src).progress == Copying
    ensures
      var before := ScanFiles(paths[..i], existing, src);
      var after := ScanFiles(paths[..i + 1], existing, src);
      var path := paths[i];
      var accepted := (path in existing || CopiedTo(before.copies, path)) && EndsWith(path, ".py");
      var dest := Destination(src, path);
      && (!accepted ==> after == before)
      && (accepted && dest == path ==> after.progress == StoppedAt(path) && after.copies == before.copies)
      && (accepted && dest != path ==>
            && after.copies == before.copies + [Copy(path, dest)]
            && after.progress == Copying)
  {
    assert paths[..i + 1][..i] == paths[..i];
    ScanConsistent(paths[..i], existing, src);
    ScanLast(paths[..i + 1], existing, src);
  }

  /** The reference selection: the entries that name existing regular files
      and end in `.py`, in entry order. */
  function PythonEntries(paths: seq<string>, existing: set<string>): (r: seq<string>)
    ensures forall p :: p in r <==> p in paths && IsPythonFile(existing, p)
    ensures |r| <= |paths|
    decreases |paths|
  {
    if |paths| == 0 then []
    else
      var n := |paths| - 1;
      var rest := PythonEntries(paths[..n], existing);
      assert paths == paths[..n] + [paths[n]];
      if IsPythonFile(existing, paths[n]) then rest + [paths[n]] else rest
  }

  /** No entry names the destination of any entry: every source lives outside
      the source folder or under another name. */
  predicate OutsideSource(paths: seq<string>, src: string)
  {
    forall i, j :: 0 <= i < |paths| && 0 <= j < |paths| ==> paths[i] != Destination(src, paths[j])
  }

  /** When no entry names a destination, the copies made during the run
      cannot change which entries are accepted: the loop never stops, and
      copies exactly the reference selection, in entry order, each to
      `<src>/<basename>`. */
  lemma {:induction false} ScanOutsideSource(paths: seq<string>, existing: set<string>, src: string)
    requires OutsideSource(paths, src)
    ensures var s := ScanFiles(paths, existing, src);
      var picked := PythonEntries(paths, existing);
      && s.progress == Copying
      && |s.copies| == |picked|
      && forall k :: 0 <= k < |picked| ==> s.copies[k] == Copy(picked[k], Destination(src, picked[k]))
    decreases |paths|
  {
    if |paths| > 0 {
      var n := |paths| - 1;
      var prior := paths[..n];
      var last := paths[n];
      assert OutsideSource(prior, src);
      ScanOutsideSource(prior, existing, src);
      ScanConsistent(prior, existing, src);
      ScanLast(paths, existing, src);
      var before := ScanFiles(prior, existing, src);
      OutsideStep(before, prior, last, existing, src);
      var rest := PythonEntries(prior, existing);
      var picked := PythonEntries(paths, existing);
      if IsPythonFile(existing, last) {
        assert picked == rest + [last];
        var s := ScanFiles(paths, existing, src);
        assert s.copies == before.copies + [Copy(last, Destination(src, last))];
      } else {
        assert picked == rest;
      }
    }
  }

  /** One turn of the loop on an entry that no earlier entry's copy can
      create, and that is not its own destination: it is copied exactly when
      it existed before the run. */
  lemma OutsideStep(s: Scan, prior: seq<string>, last: string, existing: set<string>, src: string)
    requires Consistent(s, prior, existing, src)
    requires s.progress == Copying
    requires forall j :: 0 <= j < |prior| ==> Destination(src, prior[j]) != last
    requires Destination(src, last) != last
    ensures var dest := Destination(src, last);
      Step(s, src, last)
        == if IsPythonFile(existing, last)
           then Scan(s.copies + [Copy(last, dest)], s.files + {dest}, Copying)
           else s
  {
    assert !CopiedTo(s.copies, last) by {
      forall k | 0 <= k < |s.copies|
        ensures s.copies[k].dest != last
      {
        var j :| 0 <= j < |prior| && prior[j] == s.copies[k].source;
      }
    }
  }

  /** The copy of every accepted entry goes to the source folder under the
      entry's own basename. */
  lemma DestinationKeepsBasename(src: string, path: string)
    ensures Paths.Basename(Destination(src, path)) == Paths.Basename(path)
  {
    Paths.JoinSplits(src, Paths.Basename(path));
  }

  /** The three files a finished run writes, in order: `__init__.py`,
      `README.md` and `pyproject.toml` in the package directory. */
  function GeneratedPaths(name: string): seq<string>
  {
    [Paths.Join(name, "__init__.py"), Paths.Join(name, "README.md"), Paths.Join(name, "pyproject.toml")]
  }

  /** The module names of a list of copies, one per copy. */
  function ModulesOf(copies: seq<Copy>): (r: seq<string>)
    ensures |r| == |copies|
  {
    seq(|copies|, k requires 0 <= k < |copies| => Paths.ModuleName(Paths.Basename(copies[k].source)))
  }

  lemma ModulesOfAppend(copies: seq<Copy>, c: Copy)
    ensures ModulesOf(copies + [c]) == ModulesOf(copies) + [Paths.ModuleName(Paths.Basename(c.source))]
  {
    assert forall k :: 0 <= k < |copies| ==> (copies + [c])[k] == copies[k];
  }

  /** Validation passed and the name is a path string. */
  predicate Runnable(cfg: Config)
  {
    Validate(cfg).Valid? && cfg["name"].Str?
  }

  /** The whole run. Validation comes first and a failing check stops the
      run before anything is created; a name that is not a string makes the
      path functions raise, again before anything is created. Then the two
      directories, the copy loop, and the three generated files. */
  function CreatePackage(cfg: Config, existing: set<string>): (r: Outcome)
    ensures r == Aborted(FilesNotAList, NoEffects) <==> "files" !in cfg || !cfg["files"].List?
    ensures r == Aborted(NameMissing, NoEffects) <==> "files" in cfg && cfg["files"].List? && "name" !in cfg
    ensures r == Aborted(NameNotAPath, NoEffects) <==> Validate(cfg).Valid? && !cfg["name"].Str?
    ensures r.Aborted? && !r.error.SameFile? ==> r.done == NoEffects
    ensures r.Built? || r.error.SameFile? <==> Runnable(cfg)
    ensures Runnable(cfg) ==>
      var name := cfg["name"].text;
      var files := cfg["files"].items;
      var plan := if r.Built? then r.plan else r.done;
      && plan.dirs == [name, SourceFolder(name)]
      && forall k :: 0 <= k < |plan.copies| ==>
           && plan.copies[k].source in files
           && EndsWith(plan.copies[k].source, ".py")
           && plan.copies[k].dest == Paths.Join(SourceFolder(name), Paths.Basename(plan.copies[k].source))
    ensures r.Aborted? && r.error.SameFile? ==>
      && r.done.writes == []
      && r.error.path in cfg["files"].items
      && Destination(SourceFolder(cfg["name"].text), r.error.path) == r.error.path
    ensures r.Built? ==>
      var name := cfg["name"].text;
      && |r.plan.writes| == 3
      && r.plan.writes[0] == Write(Paths.Join(name, "__init__.py"), InitFile(ModulesOf(r.plan.copies)))
      && r.plan.writes[1] == Write(Paths.Join(name, "README.md"), ReadmeFile(name, cfg))
      && r.plan.writes[2] == Write(Paths.Join(name, "pyproject.toml"), PyprojectFile(name, cfg))
  {
    match Validate(cfg)
    case Invalid(e) => Aborted(e, NoEffects)
    case Valid(checked) =>
      if !checked.name.Str? then Aborted(NameNotAPath, NoEffects)
      else
        var name := checked.name.text;
        var src := SourceFolder(name);
        var dirs := [name, src];
        var s := ScanFiles(checked.files, existing, src);
        ScanConsistent(checked.files, existing, src);
        if s.progress.StoppedAt? then Aborted(SameFile(s.progress.path), Plan(dirs, s.copies, []))
        else
          Built(Plan(dirs, s.copies,
                     [ Write(GeneratedPaths(name)[0], InitFile(ModulesOf(s.copies))),
                       Write(GeneratedPaths(name)[1], ReadmeFile(name, cfg)),
                       Write(GeneratedPaths(name)[2], PyprojectFile(name, cfg)) ]))
  }

  /** The copy loop written as the loop it is: it appends the module name
      before copying, re-tests each entry against the files that exist by
      then, and gives up on the first entry that is its own destination. It
      makes the copies the loop over all entries makes, and stops where that
      loop stops; when it runs to the end, it has the same module names. */
  method CopyFiles(filePaths: seq<string>, existing: set<string>, src: string)
    returns (copies: seq<Copy>, moduleNames: seq<string>, progress: Progress)
    ensures var s := ScanFiles(filePaths, existing, src);
      && progress == s.progress
      && copies == s.copies
      && (progress == Copying ==> moduleNames == ModulesOf(copies))
  {
    moduleNames := [];
    copies := [];
    var files := existing;
    var i := 0;
    while i < |filePaths|
      invariant 0 <= i <= |filePaths|
      invariant ScanFiles(filePaths[..i], existing, src) == Scan(copies, files, Copying)
      invariant moduleNames == ModulesOf(copies)
    {
      var path := filePaths[i];
      LoopTurn(filePaths, existing, src, i, copies, files);
      if path !in files || !EndsWith(path, ".py") {
        i := i + 1;
        continue;
      }
      var fileName := Paths.Basename(path);
      moduleNames := moduleNames + [Paths.ModuleName(fileName)];
      var dest := Paths.Join(src, fileName);
      assert dest == Destination(src, path);
      if dest == path {
        return copies, moduleNames, StoppedAt(path);
      }
      ModulesOfAppend(copies, Copy(path, dest));
      copies := copies + [Copy(path, dest)];
      files := files + {dest};
      i := i + 1;
    }
    assert filePaths[..i] == filePaths;
    progress := Copying;
  }

  /** What one turn of the copy loop does to its state, and that a stop
      is the loop's final state. */
  lemma LoopTurn(paths: seq<string>, existing: set<string>, src: string, i: nat,
                 copies: seq<Copy>, files: set<string>)
    requires i < |paths|
    requires ScanFiles(paths[..i], existing, src) == Scan(copies, files, Copying)
    ensures var path := paths[i];
      var dest := Destination(src, path);
      && (!IsPythonFile(files, path) ==> ScanFiles(paths[..i + 1], existing, src) == Scan(copies, files, Copying))
      && (IsPythonFile(files, path) && dest == path ==>
            ScanFiles(paths, existing, src) == Scan(copies, files, StoppedAt(path)))
      && (IsPythonFile(files, path) && dest != path ==>
            ScanFiles(paths[..i + 1], existing, src) == Scan(copies + [Copy(path, dest)], files + {dest}, Copying))
  {
    var path := paths[i];
    var before := Scan(copies, files, Copying);
    ScanNext(paths, existing, src, i);
    if IsPythonFile(files, path) {
      if Destination(src, path) == path {
        StepStops(before, src, path);
        StopIsFinal(paths, existing, src, i + 1);
      } else {
        StepCopies(before, src, path);
      }
    }
  }

  /** The run as a sequence of statements: the same checks in the same
      order, the two directories, the copy loop, and the three files. */
  method BuildPackage(cfg: Config, existing: set<string>) returns (r: Outcome)
    ensures r == CreatePackage(cfg, existing)
  {
    if "files" !in cfg || !cfg["files"].List? {
      return Aborted(FilesNotAList, NoEffects);
    }
    if "name" !in cfg {
      return Aborted(NameMissing, NoEffects);
    }
    if !cfg["name"].Str? {
      return Aborted(NameNotAPath, NoEffects);
    }
    var name := cfg["name"].text;
    var src := SourceFolder(name);
    var dirs := [name, src];
    var copies, moduleNames, progress := CopyFiles(cfg["files"].items, existing, src);
    if progress.StoppedAt? {
      return Aborted(SameFile(progress.path), Plan(dirs, copies, []));
    }
    var written := GeneratedPaths(name);
    r := Built(Plan(dirs, copies,
                    [ Write(written[0], InitFile(moduleNames)),
                      Write(written[1], ReadmeFile(name, cfg)),
                      Write(written[2], PyprojectFile(name, cfg)) ]));
  }

  /** The regular files that exist once a plan has been carried out. */
  function Apply(plan: Plan, existing: set<string>): (r: set<string>)
    ensures existing <= r
    ensures forall k :: 0 <= k < |plan.copies| ==> plan.copies[k].dest in r
    ensures forall k :: 0 <= k < |plan.writes| ==> plan.writes[k].path in r
    ensures forall p :: p in r ==>
      p in existing || CopiedTo(plan.copies, p) || exists k :: 0 <= k < |plan.writes| && plan.writes[k].path == p
  {
    existing
      + (set k | 0 <= k < |plan.copies| :: plan.copies[k].dest)
      + (set k | 0 <= k < |plan.writes| :: plan.writes[k].path)
  }

  /** The reference selection only looks at which entries exist. */
  lemma {:induction false} PythonEntriesAgree(paths: seq<string>, a: set<string>, b: set<string>)
    requires forall k :: 0 <= k < |paths| ==> (paths[k] in a <==> paths[k] in b)
    ensures PythonEntries(paths, a) == PythonEntries(paths, b)
    decreases |paths|
  {
    if |paths| > 0 {
      var n := |paths| - 1;
      PythonEntriesAgree(paths[..n], a, b);
    }
  }

  /** When no entry names a destination, no copy writes over an entry. */
  lemma NoEntryIsCopied(files: seq<string>, existing: set<string>, src: string)
    requires OutsideSource(files, src)
    ensures var s := ScanFiles(files, existing, src);
      forall j, k :: 0 <= j < |s.copies| && 0 <= k < |files| ==> s.copies[j].dest != files[k]
  {
    var s := ScanFiles(files, existing, src);
    ScanConsistent(files, existing, src);
    forall j, k | 0 <= j < |s.copies| && 0 <= k < |files|
      ensures s.copies[j].dest != files[k]
    {
      var i :| 0 <= i < |files| && files[i] == s.copies[j].source;
    }
  }

  /** A run that passed validation finishes exactly when its copy loop
      does not stop; its plan then holds the loop's copies and the three
      generated files, `__init__.py` first, importing the copies' modules. */
  lemma BuiltPlan(cfg: Config, existing: set<string>)
    requires Runnable(cfg)
    ensures var name := cfg["name"].text;
      var s := ScanFiles(cfg["files"].items, existing, SourceFolder(name));
      && (CreatePackage(cfg, existing).Built? <==> s.progress == Copying)
      && (s.progress == Copying ==>
            && CreatePackage(cfg, existing).plan.copies == s.copies
            && |CreatePackage(cfg, existing).plan.writes| == 3
            && CreatePackage(cfg, existing).plan.writes[0].file == InitFile(ModulesOf(s.copies))
            && forall j :: 0 <= j < 3 ==> CreatePackage(cfg, existing).plan.writes[j].path == GeneratedPaths(name)[j])
  {
  }

  /** The entries see the same regular files before and after a finished
      run that copies over no entry and generates no entry that was missing. */
  lemma EntriesUnchanged(files: seq<string>, existing: set<string>, plan: Plan)
    requires forall j, k :: 0 <= j < |plan.copies| && 0 <= k < |files| ==> plan.copies[j].dest != files[k]
    requires forall j, k :: 0 <= j < |plan.writes| && 0 <= k < |files| && plan.writes[j].path == files[k] ==>
               files[k] in existing
    ensures forall k :: 0 <= k < |files| ==> (files[k] in Apply(plan, existing) <==> files[k] in existing)
  {
  }

  /** Running again on the file system a finished run leaves behind plans
      the same package, provided no entry names a destination in the source
      folder and no entry names a generated file that did not exist before:
      the copies already made are overwritten with the same contents and the
      same files are generated again. */
  lemma RerunIsStable(cfg: Config, existing: set<string>)
    requires Runnable(cfg)
    requires OutsideSource(cfg["files"].items, SourceFolder(cfg["name"].text))
    requires forall j, k ::
               (0 <= j < 3 && 0 <= k < |cfg["files"].items| && GeneratedPaths(cfg["name"].text)[j] == cfg["files"].items[k])
               ==> cfg["files"].items[k] in existing
    ensures CreatePackage(cfg, existing).Built?
    ensures CreatePackage(cfg, Apply(CreatePackage(cfg, existing).plan, existing)) == CreatePackage(cfg, existing)
  {
    var name := cfg["name"].text;
    var files := cfg["files"].items;
    var src := SourceFolder(name);
    var first := ScanFiles(files, existing, src);
    ScanOutsideSource(files, existing, src);
    BuiltPlan(cfg, existing);
    var plan := CreatePackage(cfg, existing).plan;
    var after := Apply(plan, existing);
    NoEntryIsCopied(files, existing, src);
    EntriesUnchanged(files, existing, plan);
    PythonEntriesAgree(files, after, existing);
    ScanOutsideSource(files, after, src);
    var second := ScanFiles(files, after, src);
    assert second.copies == first.copies;
  }

  /** An entry that names the destination of an earlier entry is accepted
      once that copy has created it, and then stops the run: for any package
      name and any existing `.py` file name, listing the file and then its
      copy in the source folder makes the first copy, creates both
      directories, and writes nothing. */
  lemma SameFileAfterEarlierCopy(name: string, fileName: string, existing: set<string>)
    requires Lacks(fileName, '/') && EndsWith(fileName, ".py") && fileName in existing
    ensures var dest := Destination(SourceFolder(name), fileName);
      var cfg := map["name" := Str(name), "files" := List([fileName, dest])];
      CreatePackage(cfg, existing)
        == Aborted(SameFile(dest), Plan([name, SourceFolder(name)], [Copy(fileName, dest)], []))
  {
    var src := SourceFolder(name);
    var dest := Destination(src, fileName);
    CopyIntoSourceFolder(name, fileName);
    TwoEntryScan(fileName, dest, existing, src);
    var cfg := map["name" := Str(name), "files" := List([fileName, dest])];
    assert cfg["files"] == List([fileName, dest]) && cfg["name"] == Str(name);
    StoppedPlan(cfg, existing);
  }

  /** The copy of a file name into the source folder is another `.py` path,
      and it is its own destination. */
  lemma CopyIntoSourceFolder(name: string, fileName: string)
    requires Lacks(fileName, '/') && EndsWith(fileName, ".py")
    ensures var src := SourceFolder(name);
      var dest := Destination(src, fileName);
      && dest != fileName
      && EndsWith(dest, ".py")
      && Destination(src, dest) == dest
  {
    var src := SourceFolder(name);
    Paths.JoinShape(name, "src");
    assert |src| >= 3;
    Paths.BasenameOfName(fileName);
    var dest := Paths.Join(src, fileName);
    assert Destination(src, fileName) == dest;
    Paths.JoinSplits(src, fileName);
    assert |dest| > |fileName|;
    assert Destination(src, dest) == dest;
    Paths.JoinShape(src, fileName);
    EndsWithTrans(dest, fileName, ".py");
  }

  /** One accepted entry that is not its own destination: one copy, and
      the destination now exists. */
  lemma OneEntryScan(first: string, second: string, existing: set<string>, src: string)
    requires IsPythonFile(existing, first)
    requires Destination(src, first) == second != first
    ensures var s := ScanFiles([first], existing, src);
      s.copies == [Copy(first, second)] && s.progress == Copying && second in s.files
  {
    ScanNext([first], existing, src, 0);
    assert [first][..0] == [];
    assert [first][..1] == [first];
  }

  /** An accepted entry that is its own destination stops the loop and
      changes nothing else. */
  lemma StepStops(s: Scan, src: string, path: string)
    requires s.progress == Copying && IsPythonFile(s.files, path) && Destination(src, path) == path
    ensures Step(s, src, path) == s.(progress := StoppedAt(path))
  {
  }

  /** An accepted entry that is not its own destination is copied, and its
      destination exists from then on. */
  lemma StepCopies(s: Scan, src: string, path: string)
    requires s.progress == Copying && IsPythonFile(s.files, path) && Destination(src, path) != path
    ensures var dest := Destination(src, path);
      Step(s, src, path) == Scan(s.copies + [Copy(path, dest)], s.files + {dest}, Copying)
  {
  }

  /** Two entries, the second the destination of the first: one copy, then a stop. */
  lemma TwoEntryScan(first: string, second: string, existing: set<string>, src: string)
    requires IsPythonFile(existing, first) && EndsWith(second, ".py")
    requires Destination(src, first) == second != first
    requires Destination(src, second) == second
    ensures var s := ScanFiles([first, second], existing, src);
      s.progress == StoppedAt(second) && s.copies == [Copy(first, second)]
  {
    OneEntryScan(first, second, existing, src);
    var paths := [first, second];
    assert paths[..1] == [first];
    StepStops(ScanFiles([first], existing, src), src, second);
    ScanLast(paths, existing, src);
  }

  /** A stopped run's plan: the two directories and the loop's copies. */
  lemma StoppedPlan(cfg: Config, existing: set<string>)
    requires Runnable(cfg)
    requires ScanFiles(cfg["files"].items, existing, SourceFolder(cfg["name"].text)).progress.StoppedAt?
    ensures var name := cfg["name"].text;
      var s := ScanFiles(cfg["files"].items, existing, SourceFolder(name));
      CreatePackage(cfg, existing) == Aborted(SameFile(s.progress.path), Plan([name, SourceFolder(name)], s.copies, []))
  {
  }

  /** A run that fails validation reports which key is wrong: the message
      of the first failing check names `files` and asks for a list, or names
      `name`; the two messages differ. */
  lemma ConfigErrorMessages(cfg: Config, existing: set<string>)
    ensures var r := CreatePackage(cfg, existing);
      && ("files" !in cfg || !cfg["files"].List? ==>
            r == Aborted(FilesNotAList, NoEffects) && Message(r.error) == FilesMessage)
      && ("files" in cfg && cfg["files"].List? && "name" !in cfg ==>
            r == Aborted(NameMissing, NoEffects) && Message(r.error) == NameMessage)
    ensures Message(FilesNotAList) != Message(NameMissing)
  {
    MessagesDiffer();
  }

  /** The generated `__init__.py` re-exports exactly the copied modules:
      read back line by line it is the header and one import line per copy,
      in copy order (a single empty line when nothing was copied); each
      module is the copied file's basename without `.py`, or the whole
      basename when everything in front of `.py` is dots. */
  lemma InitImportsEveryCopy(cfg: Config, existing: set<string>)
    requires CreatePackage(cfg, existing).Built?
    requires forall k :: 0 <= k < |cfg["files"].items| ==> '\n' !in cfg["files"].items[k]
    ensures var plan := CreatePackage(cfg, existing).plan;
      var modules := ModulesOf(plan.copies);
      && plan.writes[0].file == InitFile(modules)
      && Split(Text(plan.writes[0].file), '\n')
           == [InitHeader] + (if |plan.copies| == 0 then [""] else ImportLines(modules)) + [""]
      && forall k :: 0 <= k < |plan.copies| ==>
           var b := Paths.Basename(plan.copies[k].source);
           if Paths.DotsBetween(b, 0, |b| - 3) then modules[k] == b else modules[k] + ".py" == b
  {
    var files := cfg["files"].items;
    var src := SourceFolder(cfg["name"].text);
    var s := ScanFiles(files, existing, src);
    BuiltPlan(cfg, existing);
    ScanSources(files, existing, src);
    ModuleNames(s.copies);
    var modules := ModulesOf(s.copies);
    InitTextLines(modules);
    assert Text(InitFile(modules)) == InitText(modules);
  }

  /** Every copy the loop makes is of a `.py` entry, so it spans one line
      when every entry does. */
  lemma ScanSources(files: seq<string>, existing: set<string>, src: string)
    requires forall k :: 0 <= k < |files| ==> '\n' !in files[k]
    ensures var s := ScanFiles(files, existing, src);
      forall k :: 0 <= k < |s.copies| ==> EndsWith(s.copies[k].source, ".py") && '\n' !in s.copies[k].source
  {
    var s := ScanFiles(files, existing, src);
    ScanConsistent(files, existing, src);
    forall k | 0 <= k < |s.copies|
      ensures EndsWith(s.copies[k].source, ".py") && '\n' !in s.copies[k].source
    {
      var i :| 0 <= i < |files| && files[i] == s.copies[k].source;
    }
  }

  /** The module names of copies of `.py` files: each is the basename
      without `.py`, unless everything in front of `.py` is dots, and none
      spans several lines when no source path does. */
  lemma ModuleNames(copies: seq<Copy>)
    requires forall k :: 0 <= k < |copies| ==> EndsWith(copies[k].source, ".py") && '\n' !in copies[k].source
    ensures var modules := ModulesOf(copies);
      && (forall k :: 0 <= k < |copies| ==> '\n' !in modules[k])
      && forall k :: 0 <= k < |copies| ==>
           var b := Paths.Basename(copies[k].source);
           if Paths.DotsBetween(b, 0, |b| - 3) then modules[k] == b else modules[k] + ".py" == b
  {
    var modules := ModulesOf(copies);
    forall k | 0 <= k < |copies|
      ensures '\n' !in modules[k]
      ensures var b := Paths.Basename(copies[k].source);
        if Paths.DotsBetween(b, 0, |b| - 3) then modules[k] == b else modules[k] + ".py" == b
    {
      var source := copies[k].source;
      LacksNotIn(source, '\n');
      Paths.ModuleNameLacks(source, '\n');
      LacksNotIn(modules[k], '\n');
      Paths.ModuleNameOfPyFile(source);
    }
  }
}
