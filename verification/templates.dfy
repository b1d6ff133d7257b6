/**
 The three generated texts: the package `__init__.py` that re-exports every
 copied module, `README.md`, and `pyproject.toml`. Each template is a
 triple-quoted literal; it is written here as the list of its lines.
 */
module Templates {
  import opened Strings
  import opened Configuration

  const InitHeader := "# __init__.py"
  const DefaultDescription := "A Python package created with PyPackify."
  const DefaultAuthor := "Unknown"
  const DefaultVersion := "0.1.0"
  const DefaultEmail := "unknown@example.com"
  const DefaultLicense := "MIT"

  /** The wildcard import that re-exports one copied module. */
  function ImportLine(moduleName: string): string
  {
    "from .src." + moduleName + " import *"
  }

  function ImportLines(modules: seq<string>): (r: seq<string>)
    ensures |r| == |modules|
    ensures forall k :: 0 <= k < |modules| ==> r[k] == ImportLine(modules[k])
  {
    seq(|modules|, k requires 0 <= k < |modules| => ImportLine(modules[k]))
  }

  /** The text of `__init__.py`: the header line, the import lines joined by
      newlines, and a final newline. */
  function InitText(modules: seq<string>): (r: string)
    ensures |modules| == 0 ==> r == "# __init__.py\n\n"
  {
    var body := Join("\n", ImportLines(modules));
    assert [InitHeader, body][1..] == [body];
    assert Unlines([body]) == body + "\n" + "";
    assert |modules| == 0 ==> body == "";
    assert InitHeader + "\n" + ("" + "\n" + "") == "# __init__.py\n\n";
    Unlines([InitHeader, body])
  }

  /** Read back line by line, `__init__.py` is the header, one import line per
      module in module order (a single empty line when there is no module),
      and the empty text after the final newline. */
  lemma InitTextLines(modules: seq<string>)
    requires forall k :: 0 <= k < |modules| ==> '\n' !in modules[k]
    ensures Split(InitText(modules), '\n')
         == [InitHeader] + (if |modules| == 0 then [""] else ImportLines(modules)) + [""]
  {
    var imports := ImportLines(modules);
    var body := Join("\n", imports);
    SplitAfterHeader(InitHeader, body);
    if |modules| == 0 {
      SplitWithoutSeparator(body, '\n');
    } else {
      forall k | 0 <= k < |imports|
        ensures '\n' !in imports[k]
      {
        ImportLineSingle(modules[k]);
      }
      SplitJoin(imports, '\n');
    }
  }

  lemma ImportLineSingle(moduleName: string)
    requires '\n' !in moduleName
    ensures '\n' !in ImportLine(moduleName)
  {
  }

  /** A one-line header followed by a body of any number of lines. */
  lemma SplitAfterHeader(header: string, body: string)
    requires '\n' !in header
    ensures Split(Unlines([header, body]), '\n') == [header] + Split(body, '\n') + [""]
  {
    assert [header, body][1..] == [body];
    assert Unlines([body]) == body + ['\n'] + "";
    assert Unlines([header, body]) == header + ['\n'] + (body + ['\n'] + "");
    SplitConcat(header, body + ['\n'] + "", '\n');
    SplitWithoutSeparator(header, '\n');
    SplitConcat(body, "", '\n');
    SplitWithoutSeparator("", '\n');
  }

  /** The lines of `README.md`: a heading with the name, the description, and
      an author section. */
  function ReadmeLines(packageName: string, cfg: Config): seq<string>
  {
    [ "# " + Get(cfg, "name", packageName),
      "",
      Get(cfg, "description", DefaultDescription),
      "",
      "## Author",
      Get(cfg, "author", DefaultAuthor) ]
  }

  function Readme(packageName: string, cfg: Config): string
  {
    Unlines(ReadmeLines(packageName, cfg))
  }

  /** The lines of `pyproject.toml`, table by table. The license value
      appears twice: as the `license` field and inside the license
      classifier. */
  function PyprojectLines(packageName: string, cfg: Config): seq<string>
  {
    var license := Get(cfg, "license", DefaultLicense);
    BuildSystemTable
      + ProjectHead(packageName, cfg)
      + ProjectAuthors(cfg)
      + ProjectOptions(license)
      + ProjectClassifiers(license)
      + PackageFindTable
  }

  const BuildSystemTable: seq<string> := [
    "[build-system]",
    "requires = [\"setuptools>=42\", \"wheel\"]",
    "build-backend = \"setuptools.build_meta\"",
    "" ]

  function ProjectHead(packageName: string, cfg: Config): seq<string>
  {
    [ "[project]",
      "name = \"" + Get(cfg, "name", packageName) + "\"",
      "version = \"" + Get(cfg, "version", DefaultVersion) + "\"",
      "description = \"" + Get(cfg, "description", DefaultDescription) + "\"" ]
  }

  function ProjectAuthors(cfg: Config): seq<string>
  {
    [ "authors = [",
      "    { name = \"" + Get(cfg, "author", DefaultAuthor) + "\", email = \""
        + Get(cfg, "author_email", DefaultEmail) + "\" }",
      "]" ]
  }

  function ProjectOptions(license: string): seq<string>
  {
    [ "license = \"" + license + "\"",
      "readme = \"README.md\"",
      "requires-python = \">=3.6\"" ]
  }

  function ProjectClassifiers(license: string): seq<string>
  {
    [ "classifiers = [",
      "    \"Programming Language :: Python :: 3\",",
      "    \"License :: OSI Approved :: " + license + " License\",",
      "    \"Operating System :: OS Independent\",",
      "]",
      "" ]
  }

  const PackageFindTable: seq<string> := [
    "[tool.setuptools.packages.find]",
    "where = [\"src\"]" ]

  function Pyproject(packageName: string, cfg: Config): string
  {
    Unlines(PyprojectLines(packageName, cfg))
  }

  /** A generated file, named by the template it is filled from. */
  datatype Generated =
    | InitFile(modules: seq<string>)
    | ReadmeFile(packageName: string, cfg: Config)
    | PyprojectFile(packageName: string, cfg: Config)

  /** The text written for a generated file. */
  function Text(g: Generated): string
  {
    match g
    case InitFile(modules) => InitText(modules)
    case ReadmeFile(packageName, cfg) => Readme(packageName, cfg)
    case PyprojectFile(packageName, cfg) => Pyproject(packageName, cfg)
  }

  /** No interpolated value, and not the package name, spans several lines. */
  predicate SingleLineValues(packageName: string, cfg: Config)
  {
    && '\n' !in packageName
    && forall key :: key in cfg ==> '\n' !in Render(cfg[key])
  }

  lemma GetSingleLine(packageName: string, cfg: Config, key: string, default: string)
    requires SingleLineValues(packageName, cfg) && '\n' !in default
    ensures '\n' !in Get(cfg, key, default)
  {
  }

  /** Read back line by line, `README.md` is the name heading, the
      description (the default sentence when absent), the author heading and
      the author (`Unknown` when absent). */
  lemma ReadmeFields(packageName: string, cfg: Config)
    requires SingleLineValues(packageName, cfg)
    ensures var lines := Split(Readme(packageName, cfg), '\n');
      && |lines| == 7
      && lines[0] == "# " + Get(cfg, "name", packageName)
      && lines[2] == Get(cfg, "description", DefaultDescription)
      && lines[4] == "## Author"
      && lines[5] == Get(cfg, "author", DefaultAuthor)
      && lines[1] == lines[3] == lines[6] == ""
    ensures "description" !in cfg ==> Split(Readme(packageName, cfg), '\n')[2] == "A Python package created with PyPackify."
    ensures "author" !in cfg ==> Split(Readme(packageName, cfg), '\n')[5] == "Unknown"
    ensures "name" in cfg ==> Split(Readme(packageName, cfg), '\n')[0] == "# " + Render(cfg["name"])
    ensures "description" in cfg ==> Split(Readme(packageName, cfg), '\n')[2] == Render(cfg["description"])
    ensures "author" in cfg ==> Split(Readme(packageName, cfg), '\n')[5] == Render(cfg["author"])
  {
    var lines := ReadmeLines(packageName, cfg);
    ReadmeLinesSingle(packageName, cfg);
    SplitUnlines(lines);
    assert Split(Readme(packageName, cfg), '\n') == lines + [""];
  }

  lemma ReadmeLinesSingle(packageName: string, cfg: Config)
    requires SingleLineValues(packageName, cfg)
    ensures SingleLines(ReadmeLines(packageName, cfg))
  {
    GetSingleLine(packageName, cfg, "name", packageName);
    GetSingleLine(packageName, cfg, "description", DefaultDescription);
    GetSingleLine(packageName, cfg, "author", DefaultAuthor);
    Enclosed("# ", Get(cfg, "name", packageName), "");
    assert "# " + Get(cfg, "name", packageName) + "" == "# " + Get(cfg, "name", packageName);
  }

  predicate SingleLines(lines: seq<string>)
  {
    forall k :: 0 <= k < |lines| ==> '\n' !in lines[k]
  }

  /** No line of `pyproject.toml` holds a newline when no value does. */
  lemma PyprojectLinesSingle(packageName: string, cfg: Config)
    requires SingleLineValues(packageName, cfg)
    ensures SingleLines(PyprojectLines(packageName, cfg))
  {
    var license := Get(cfg, "license", DefaultLicense);
    GetSingleLine(packageName, cfg, "license", DefaultLicense);
    BuildSystemTableSingle();
    PackageFindTableSingle();
    ProjectHeadSingle(packageName, cfg);
    ProjectAuthorsSingle(packageName, cfg);
    ProjectOptionsSingle(license);
    ProjectClassifiersSingle(license);
    var a := BuildSystemTable + ProjectHead(packageName, cfg);
    SingleLinesAppend(BuildSystemTable, ProjectHead(packageName, cfg));
    SingleLinesAppend(a, ProjectAuthors(cfg));
    var b := a + ProjectAuthors(cfg);
    SingleLinesAppend(b, ProjectOptions(license));
    var c := b + ProjectOptions(license);
    SingleLinesAppend(c, ProjectClassifiers(license));
    SingleLinesAppend(c + ProjectClassifiers(license), PackageFindTable);
  }

  lemma SingleLinesAppend(a: seq<string>, b: seq<string>)
    requires SingleLines(a) && SingleLines(b)
    ensures SingleLines(a + b)
  {
  }

  /** A line of any text between two one-line texts is one line when the
      text is. */
  lemma Enclosed(before: string, middle: string, after: string)
    requires '\n' !in before && '\n' !in middle && '\n' !in after
    ensures '\n' !in before + middle + after
  {
  }

  lemma BuildSystemTableSingle()
    ensures SingleLines(BuildSystemTable)
  {
    RequiresLineSingle();
    BackendLineSingle();
  }

  lemma RequiresLineSingle()
    ensures '\n' !in "requires = [\"setuptools>=42\", \"wheel\"]"
  {
  }

  lemma BackendLineSingle()
    ensures '\n' !in "build-backend = \"setuptools.build_meta\""
  {
  }

  lemma PackageFindTableSingle()
    ensures SingleLines(PackageFindTable)
  {
    assert '\n' !in "[tool.setuptools.packages.find]";
  }

  lemma ProjectOptionsSingle(license: string)
    requires '\n' !in license
    ensures SingleLines(ProjectOptions(license))
  {
    Enclosed("license = \"", license, "\"");
  }

  lemma ProjectClassifiersSingle(license: string)
    requires '\n' !in license
    ensures SingleLines(ProjectClassifiers(license))
  {
    LanguageClassifierSingle();
    OsClassifierSingle();
    Enclosed("    \"License :: OSI Approved :: ", license, " License\",");
  }

  lemma LanguageClassifierSingle()
    ensures '\n' !in "    \"Programming Language :: Python :: 3\","
  {
  }

  lemma OsClassifierSingle()
    ensures '\n' !in "    \"Operating System :: OS Independent\","
  {
  }

  lemma ProjectHeadSingle(packageName: string, cfg: Config)
    requires SingleLineValues(packageName, cfg)
    ensures SingleLines(ProjectHead(packageName, cfg))
  {
    GetSingleLine(packageName, cfg, "name", packageName);
    GetSingleLine(packageName, cfg, "version", DefaultVersion);
    GetSingleLine(packageName, cfg, "description", DefaultDescription);
    Enclosed("name = \"", Get(cfg, "name", packageName), "\"");
    Enclosed("version = \"", Get(cfg, "version", DefaultVersion), "\"");
    Enclosed("description = \"", Get(cfg, "description", DefaultDescription), "\"");
  }

  lemma ProjectAuthorsSingle(packageName: string, cfg: Config)
    requires SingleLineValues(packageName, cfg)
    ensures SingleLines(ProjectAuthors(cfg))
  {
    var author := Get(cfg, "author", DefaultAuthor);
    var email := Get(cfg, "author_email", DefaultEmail);
    GetSingleLine(packageName, cfg, "author", DefaultAuthor);
    GetSingleLine(packageName, cfg, "author_email", DefaultEmail);
    Enclosed("    { name = \"", author, "\", email = \"");
    Enclosed("    { name = \"" + author + "\", email = \"", email, "\" }");
  }

  /** Where each value sits among the lines of `pyproject.toml`. */
  lemma PyprojectLineValues(packageName: string, cfg: Config)
    ensures var lines := PyprojectLines(packageName, cfg);
      var license := Get(cfg, "license", DefaultLicense);
      && |lines| == 22
      && lines[0] == "[build-system]"
      && lines[4] == "[project]"
      && lines[5] == "name = \"" + Get(cfg, "name", packageName) + "\""
      && lines[6] == "version = \"" + Get(cfg, "version", DefaultVersion) + "\""
      && lines[7] == "description = \"" + Get(cfg, "description", DefaultDescription) + "\""
      && lines[9] == "    { name = \"" + Get(cfg, "author", DefaultAuthor) + "\", email = \""
                     + Get(cfg, "author_email", DefaultEmail) + "\" }"
      && lines[11] == "license = \"" + license + "\""
      && lines[16] == "    \"License :: OSI Approved :: " + license + " License\","
      && lines[20] == "[tool.setuptools.packages.find]"
      && lines[21] == "where = [\"src\"]"
  {
  }

  /** Read back line by line, `pyproject.toml` carries each configured value
      on its own line: the name, the version, the author and e-mail, and the
      same license value both in the `license` field and in the license
      classifier; packages are always looked for under `src`. */
  lemma PyprojectFields(packageName: string, cfg: Config)
    requires SingleLineValues(packageName, cfg)
    ensures var lines := Split(Pyproject(packageName, cfg), '\n');
      var license := Get(cfg, "license", DefaultLicense);
      && |lines| == 23
      && lines[0] == "[build-system]"
      && lines[4] == "[project]"
      && lines[5] == "name = \"" + Get(cfg, "name", packageName) + "\""
      && lines[6] == "version = \"" + Get(cfg, "version", DefaultVersion) + "\""
      && lines[7] == "description = \"" + Get(cfg, "description", DefaultDescription) + "\""
      && lines[9] == "    { name = \"" + Get(cfg, "author", DefaultAuthor) + "\", email = \""
                     + Get(cfg, "author_email", DefaultEmail) + "\" }"
      && lines[11] == "license = \"" + license + "\""
      && lines[16] == "    \"License :: OSI Approved :: " + license + " License\","
      && lines[20] == "[tool.setuptools.packages.find]"
      && lines[21] == "where = [\"src\"]"
      && lines[22] == ""
    ensures var lines := Split(Pyproject(packageName, cfg), '\n');
      && ("version" in cfg ==> lines[6] == "version = \"" + Render(cfg["version"]) + "\"")
      && ("license" in cfg ==>
            && lines[11] == "license = \"" + Render(cfg["license"]) + "\""
            && lines[16] == "    \"License :: OSI Approved :: " + Render(cfg["license"]) + " License\",")
  {
    var lines := PyprojectLines(packageName, cfg);
    PyprojectLineValues(packageName, cfg);
    PyprojectLinesSingle(packageName, cfg);
    SplitUnlines(lines);
  }

  /** Absent keys fall back to the fixed defaults: version `0.1.0`, e-mail
      `unknown@example.com`, license `MIT` in both places it appears. This
      holds of the lines of `pyproject.toml` for every configuration, and of
      the text read back line by line when no value spans several lines. */
  lemma PyprojectDefaults(packageName: string, cfg: Config)
    ensures var lines := PyprojectLines(packageName, cfg);
      && |lines| == 22
      && ("version" !in cfg ==> lines[6] == "version = \"0.1.0\"")
      && ("author_email" !in cfg ==>
            lines[9] == "    { name = \"" + Get(cfg, "author", DefaultAuthor) + "\", email = \"unknown@example.com\" }")
      && ("license" !in cfg ==>
            lines[11] == "license = \"MIT\"" && lines[16] == "    \"License :: OSI Approved :: MIT License\",")
    ensures SingleLineValues(packageName, cfg) ==>
      Split(Pyproject(packageName, cfg), '\n') == PyprojectLines(packageName, cfg) + [""]
  {
    PyprojectLineValues(packageName, cfg);
    DefaultLines();
    DefaultEmailLine(Get(cfg, "author", DefaultAuthor));
    if SingleLineValues(packageName, cfg) {
      PyprojectLinesSingle(packageName, cfg);
      SplitUnlines(PyprojectLines(packageName, cfg));
    }
  }

  lemma DefaultEmailLine(author: string)
    ensures "    { name = \"" + author + "\", email = \"" + DefaultEmail + "\" }"
         == "    { name = \"" + author + "\", email = \"unknown@example.com\" }"
  {
  }

  /** The default values spelled into their lines. */
  lemma DefaultLines()
    ensures "version = \"" + DefaultVersion + "\"" == "version = \"0.1.0\""
    ensures "license = \"" + DefaultLicense + "\"" == "license = \"MIT\""
    ensures "    \"License :: OSI Approved :: " + DefaultLicense + " License\","
         == "    \"License :: OSI Approved :: MIT License\","
  {
  }
}
