/**
 The parsed configuration file and the two checks `create_package` makes of it
 before touching the file system.
 */
module Configuration {
  import Strings

  /** A configuration value as the builder sees it: a string, a list of path
      strings (the only list the builder reads is `files`), or any other JSON
      value, carried with the text Python's `str` gives it. */
  datatype Value = Str(text: string) | List(items: seq<string>) | Other(shown: string)

  /** The parsed configuration: a map from key to value. */
  type Config = map<string, Value>

  /** How a value reads when interpolated into a template. A list reads as
      its items in `'` quotes, joined by `, ` inside brackets: the shape of
      Python's `repr` of a list of strings, without its choice of quote and
      its escapes. */
  function Render(v: Value): string
  {
    match v
    case Str(t) => t
    case List(items) =>
      var quoted := seq(|items|, k requires 0 <= k < |items| => "'" + items[k] + "'");
      "[" + Strings.Join(", ", quoted) + "]"
    case Other(shown) => shown
  }

  /** `config.get(key, default)` as it reads inside a template. */
  function Get(cfg: Config, key: string, default: string): (r: string)
    ensures key !in cfg ==> r == default
    ensures key in cfg ==> r == Render(cfg[key])
  {
    if key in cfg then Render(cfg[key]) else default
  }

  /** Why a run stops. The first two are the configuration errors the builder
      raises itself; `NameNotAPath` is the type error the path functions raise
      on a name that is not a string; `SameFile` is the error the file copy
      raises when an accepted entry is already its own destination. */
  datatype Error = FilesNotAList | NameMissing | NameNotAPath | SameFile(path: string)

  const FilesMessage := "Config must include a 'files' key with a list of Python file paths."
  const NameMessage := "Config must include a 'name' key for the package name."

  /** The message of the `ValueError` each configuration error raises. */
  function Message(e: Error): string
    requires e == FilesNotAList || e == NameMissing
  {
    if e == FilesNotAList then FilesMessage else NameMessage
  }

  /** The two messages tell the errors apart. */
  lemma MessagesDiffer()
    ensures FilesMessage != NameMessage
  {
    assert FilesMessage[23] != NameMessage[23];
  }

  /** What survives validation: the `name` value and the `files` list. */
  datatype Checked = Checked(name: Value, files: seq<string>)

  datatype Validated = Valid(checked: Checked) | Invalid(error: Error)

  /** The two configuration checks, in order: `files` must be present and a
      list, then `name` must be present. */
  function Validate(cfg: Config): (r: Validated)
    ensures r.Valid? <==> "files" in cfg && cfg["files"].List? && "name" in cfg
    ensures r == Invalid(FilesNotAList) <==> "files" !in cfg || !cfg["files"].List?
    ensures r == Invalid(NameMissing) <==> "files" in cfg && cfg["files"].List? && "name" !in cfg
    ensures r.Valid? ==> r.checked.files == cfg["files"].items && r.checked.name == cfg["name"]
  {
    if "files" !in cfg || !cfg["files"].List? then Invalid(FilesNotAList)
    else if "name" !in cfg then Invalid(NameMissing)
    else Valid(Checked(cfg["name"], cfg["files"].items))
  }
}
