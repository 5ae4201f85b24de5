/**
  The entities the rendering pipeline passes around, and the collaborators
  it calls but whose code is not part of this model (directory reading,
  decryption, YAML decoding, the ignore-pattern matcher and the template
  engine).
 */
module Types {

  datatype Option<+T> = None | Some(value: T)

  /** A Go `(T, error)` pair: either a value or the error's message. */
  datatype Result<+T> = Ok(value: T) | Err(error: string)

  /** The generic data YAML decodes to; templates look fields up in it. */
  datatype Value =
    | Null
    | Bool(b: bool)
    | Number(n: int)
    | Str(s: string)
    | List(items: seq<Value>)
    | Mapping(fields: map<string, Value>)

  type Mapping = map<string, Value>

  /** The render-time context; `None` stands for a nil Go map. */
  datatype Context = Context(env: Option<Mapping>, values: Option<Mapping>)

  /**
    What listing a directory gives: its entries, in enumeration order, or
    the error reading it raised.
   */
  datatype Directory = Listing(entries: seq<Node>) | Unlistable(error: string)

  /** A directory entry; a file's text is what reading it gives. */
  datatype Node =
    | File(name: string, text: Result<string>)
    | Dir(name: string, dir: Directory)

  /** An ignore rule set: the ordered patterns of the ignore package. */
  type RuleSet = seq<string>

  /** One configured application (`ApplicationInput`). */
  datatype ApplicationInput = ApplicationInput(
    name: string,
    templates: string,     // path of the template root
    values: string,        // path of the values overlay; "" when there is none
    muteWarning: bool)

  /** One resolved output unit (`applicationOutput`). */
  datatype OutputUnit = OutputUnit(outPath: string, template: string, context: Context)

  datatype Delims = Delims(left: string, right: string)

  /** What the template engine does with one template text. */
  datatype Execution =
    | ParseFailed(parseError: string)
    | ExecFailed(execError: string)
    | Executed(output: string)

  /** The collaborators, as total functions of their inputs. */
  datatype Externals = Externals(
    // io.ReadDir on an application's template root
    readDir: string -> Directory,
    // io.DecryptFile(path, "yaml")
    decrypt: string -> Result<string>,
    // yaml.Unmarshal of a text into an existing (possibly nil) mapping
    unmarshal: (Option<Mapping>, string) -> Result<Option<Mapping>>,
    // Rules.Ignore(name, isDir)
    ignore: (RuleSet, string, bool) -> bool,
    // the rules Rules.ParseFile adds for an override file with this text
    parseRules: string -> RuleSet,
    // text/template with sprig, strict missing keys and the given delimiters
    engine: (Delims, Context, string) -> Execution)

  /** `filepath.Join` of two elements: empty elements are dropped. */
  function Join(dir: string, name: string): string
  {
    if dir == "" then name
    else if name == "" then dir
    else dir + "/" + name
  }
}
