# PyPackify in Dafny

PyPackify turns a handful of loose Python files into a package. It reads a
configuration (`name`, `files` and optional metadata) and then does four
things:

- it validates the configuration;
- it creates the package directory and its `src` folder;
- it copies every listed `.py` file into `src`;
- it writes `__init__.py`, `README.md` and `pyproject.toml`.

The model covers `create_package`, `generate_readme` and `generate_pyproject`
of `pypackify.py`.

A run in this model is a pure function, `Builder.CreatePackage`. It takes the
configuration and the set of paths that are existing regular files when the
run starts. It returns the run's outcome:

- `Built(plan)`: the plan lists the directories made, the files copied in
  order, and the three generated files.
- `Aborted(error, done)`: the error that stopped the run, and what was done
  before it.

Each generated file is named by its template, as a `Templates.Generated`
value. Its text is `Templates.Text` of that value. The texts are the
triple-quoted literals of the source, written as lists of lines. The lemmas
read them back with `split("\n")`.

Modules:

- `Strings`: prefix and suffix tests, `find`/`rfind` of one character, `join`,
  `split`, and the text of a list of lines.
- `Paths`: POSIX `basename`, two-part `join` and `splitext`.
- `Configuration`: configuration values, `config.get` as a template reads it,
  and the two validation checks.
- `Templates`: the three generated texts and what each one says line by line.
- `Builder`:
  - the copy loop, as a fold (`ScanFiles`) and as a `while` loop (`CopyFiles`);
  - the run, as a function (`CreatePackage`) and as a method (`BuildPackage`);
  - the properties of a run.

Some behaviour of this version of `pypackify.py` is worth stating plainly:

- It has no `username`, no `version` check, no `tests` folder and no
  `LICENSE`.
- Whether an entry is a regular file is checked at the moment the loop
  reaches it. An entry is accepted if it existed before the run, or if an
  earlier copy of the same run created it.
- A rerun is not unconditionally a harmless overwrite. An accepted entry
  that is its own destination (`<name>/src/<basename>`) makes `shutil.copy`
  raise `SameFileError`. That aborts the run after the directories and the
  earlier copies, and before any file is generated.

## Model

| member | source | states |
|---|---|---|
| Configuration.Validate | pypackify.py:18-21 | Validation passes exactly when `files` is present and a list and `name` is present. It fails with the `files` error exactly when `files` is missing or not a list, and with the `name` error exactly when only `name` is missing. On success it carries the configured name and files. |
| Builder.CreatePackage | pypackify.py:12-59 | Each configuration error aborts with nothing created, iff its condition holds, in the source's order. A non-string name aborts before anything is created. Otherwise the run creates `<name>` and `<name>/src`. Every copy is of a listed `.py` entry to `<name>/src/<basename>`. A `SameFileError` abort names a listed entry that is its own destination, and nothing is written after it. A finished run writes `__init__.py` (importing the copies' modules), `README.md` and `pyproject.toml` into `<name>`, in that order. |
| Builder.ConfigErrorMessages | pypackify.py:18-21 | A configuration whose `files` is missing or not a list aborts with nothing done and the `files` message. One with a `files` list but no `name` aborts with the `name` message. The two messages differ. |
| Builder.BuildPackage | pypackify.py:12-57 | The run as a sequence of statements, with early returns and the copy loop, gives exactly the outcome of `CreatePackage`. |
| Builder.CopyFiles | pypackify.py:36-45 | The `while` loop makes the same copies as the fold over all entries, and stops on the same entry. When it runs to the end, the module names it collected are those of its copies, in order. |
| Builder.LoopTurn | pypackify.py:38-45 | One turn skips a rejected entry and copies an accepted one. When an accepted entry is its own destination, the state is the loop's final state. |
| Builder.ScanConsistent | pypackify.py:36-45 | After any entries, every copy comes from a listed `.py` entry and goes to its destination, and no file is copied onto itself. The existing regular files are exactly those from before the run plus the copy destinations. A stop is on an accepted entry that is its own destination. |
| Builder.EntryDecision | pypackify.py:38-44 | Entry `i` is accepted iff it existed before the run or an earlier copy created it, and it ends in `.py`. A rejected entry changes nothing. An accepted entry is appended as a copy, or stops the loop when it is its own destination. |
| Builder.ScanPrefix | pypackify.py:37-45 | The copies made for the first `i` entries are a prefix of the copies made for all entries, so copies come out in entry order. |
| Builder.StopIsFinal | pypackify.py:44 | Once the loop has stopped, later entries change nothing. |
| Builder.PythonEntries | pypackify.py:39 | The reference selection holds exactly the listed entries that existed before the run and end in `.py`. |
| Builder.ScanOutsideSource | pypackify.py:37-45 | Suppose no entry names any entry's destination. Then the loop never stops and copies exactly the reference selection, in entry order, each to its destination. |
| Builder.DestinationKeepsBasename | pypackify.py:42-44 | A copy keeps the basename of its source. |
| Builder.BuiltPlan | pypackify.py:44-57 | A validated run finishes iff its copy loop does not stop. A finished plan holds the loop's copies and the three generated paths, and `__init__.py` is filled with the copies' modules. |
| Builder.StoppedPlan | pypackify.py:44 | A stopped loop aborts the run with `SameFileError` on the entry it stopped at. The plan keeps both directories and the copies made before, and writes nothing. |
| Builder.SameFileAfterEarlierCopy | pypackify.py:39-44 | Take any package name and any existing `.py` file name. Listing the file and then its copy in `src` makes one copy, then aborts on the second entry, with nothing written. |
| Builder.RerunIsStable | pypackify.py:27-57 | Take a run in which no entry names a destination and no entry names a generated file that did not already exist. That run finishes, and running again on the files it leaves behind gives exactly the same outcome. |
| Builder.EntriesUnchanged | pypackify.py:39 | A plan that copies over no entry and creates no missing entry leaves every entry's existence as it was. |
| Builder.NoEntryIsCopied | pypackify.py:44 | When no entry names a destination, no copy writes over an entry. |
| Builder.InitImportsEveryCopy | pypackify.py:42-52 | Read back line by line, a finished run's `__init__.py` is the header, then one `from .src.<module> import *` per copy in copy order (one empty line when nothing was copied), then the empty rest. Each module is the copied file's basename without `.py`, or the whole basename when only dots precede `.py`. |
| Builder.ModuleNames | pypackify.py:42-43 | The module of each copied `.py` file is its basename without `.py`, except when only dots precede `.py`. No module spans two lines when no source path does. |
| Paths.BasenameShape | pypackify.py:42 | The basename is a suffix of the path, holds no `/`, and is the whole path or follows a `/`. |
| Paths.BasenameOfName | pypackify.py:42 | A name without `/` is its own basename. |
| Paths.JoinShape | pypackify.py:32 | The joined path ends with the second part, and starts with the first unless the second is absolute. |
| Paths.JoinSplits | pypackify.py:44 | Joining a directory and a name without `/` puts one separator between them. `basename` gives the name back, and the rest is the directory ending in a separator. |
| Paths.Splitext | pypackify.py:43 | The root and the extension concatenate to the path. The extension is empty, or a dot followed by text with no `/` and no further dot. An extension is cut only when something other than dots precedes it in the last component. Without one, every dot of the last component has only dots in front of it. |
| Paths.ModuleNameOfPyFile | pypackify.py:42-43 | The basename of a `.py` path ends in `.py`. The module name is that basename without `.py`, unless only dots precede `.py`, when the basename is kept whole. |
| Templates.InitText | pypackify.py:48-52 | With no modules the file is the header and an empty line. |
| Templates.InitTextLines | pypackify.py:48-52 | Read back line by line, `__init__.py` is the header, the import lines (one empty line when there are none), and the empty text after the final newline. |
| Templates.ReadmeFields | pypackify.py:61-69 | Read back line by line, `README.md` has seven lines. They are the name heading, the description, the `## Author` heading and the author, with blank lines between them. A configured name, description or author appears as configured. A missing description gives the default sentence, and a missing author gives `Unknown`. |
| Templates.PyprojectFields | pypackify.py:74-98 | Read back line by line, `pyproject.toml` has 23 lines. The build-system and project tables sit in fixed places. Name, version and description each sit on their own line, and author and e-mail share one line. The license value appears both in the `license` field and in the license classifier, and packages are looked for under `src`. A configured version or license appears as configured. |
| Templates.PyprojectDefaults | pypackify.py:82-92 | For every configuration, a missing key uses its default among the 22 lines of `pyproject.toml`: version `0.1.0`, e-mail `unknown@example.com`, and license `MIT` in both places. When no value spans several lines, the text read back line by line is exactly those lines. |
| Strings.SplitUnlines | pypackify.py:50-52 | A triple-quoted text of single lines, split at newlines, gives its lines back followed by the empty text. |
| Strings.SplitJoin | pypackify.py:49 | Splitting a newline-joined list of single lines gives the list back. |

## Left out

- `load_config` (lines 5-10) and `main` (lines 103-112) are left out. Reading and parsing the JSON file and parsing the command line are input. A run starts from the parsed configuration.
- The `print` diagnostics are left out. They are output only.
- The file system is left out except for the set of existing regular files. Directories are not tracked. OS failures of `makedirs`, `copy` or `open` are not modelled: an empty name, a file where a directory is needed, permissions, or a full disk.
- Two paths are the same file only when they are the same string. Aliasing through `..`, symbolic links or `./` is not modelled.
- The bytes of copied files are not modelled. A copy is its source and destination path.
- A `files` list whose items are not strings is left out. Its items are taken as strings.
- `Configuration.Render`: a list reads as its items, each in `'` quotes, joined by `, ` inside brackets. This is not Python's `repr`: the quote is always `'`, and quotes, backslashes, newlines and other non-printable characters in an item appear raw instead of escaped. So a list item holding `'` reads differently from the source's text, and a list item holding a newline spans several lines in the model (taking the configuration outside the single-line read-back lemmas) where the source writes `\n` on one line. Other JSON values carry the text `str` gives them.
- Templates.PyprojectFields: values are interpolated without TOML escaping, as the source does. Its contract reads the text back line by line only when no value spans several lines (`SingleLineValues`).
- Templates.ReadmeFields: its contract reads the text back line by line only when no value spans several lines.
- Builder.InitImportsEveryCopy: it reads the text back line by line only when no `files` entry spans several lines.
- Builder.RerunIsStable: it is proved when no entry names a copy destination and no entry names a generated file that did not exist before. Outside those conditions a rerun can accept more entries or stop on `SameFileError`, and the model makes no claim.
- Builder.CreatePackage: a plan names each generated file by its template. The text written is `Templates.Text` of it.
- The namespaced layout (`src/<name>_<username>`, a `tests` folder), the `version` check and the `LICENSE` file are left out. They are not part of `pypackify.py`.
