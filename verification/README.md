# bogie rendering pipeline, in Dafny

bogie renders a tree of text templates into configuration artifacts, one
set per configured application. This project models its core: how the
render contexts are built, how each application's template directory is
walked under ignore rules, and how the resulting output units are rendered
and routed to one of three destinations.

- `types.dfy` (module `Types`) holds the entities: applications, contexts,
  output units, and the template tree as an inductive `Directory`/`Node`
  datatype. It also holds the collaborators whose code is not part of this
  model, as total functions in `Externals`:
  - directory listing;
  - decryption;
  - YAML decoding;
  - the ignore matcher and override-file parser;
  - the template engine.
- `config.dfy` (module `Config`) is the run configuration `Bogie`. It is a
  class because `InitRules` fills in its rule set in place.
- `walk.dfy` (module `Walk`) models `bogie/process.go`:
  - `GenContext` and `SetValueContext` are pure functions.
  - `WalkDir`/`WalkEntries` specify the depth-first walk.
  - `ProcessApplication` is the recursive, loop-based walk. It appends to
    a shared `Outputs` object and is proved equal to the specification.
  - `ProcessApplications` loops over the applications and is proved equal
    to `ProcessAll`.
- `text.dfy` (module `Text`) models `bytes.TrimSpace` over Unicode white
  space and the `%q` quoting used in parse-error messages.
- `render.dfy` (module `Render`) models `bogie/bogie.go`:
  - `RunTemplate` and `HasContent`;
  - the three renderers, as methods over a `Disk` (path-to-text map) and a
    `Console` (text written so far);
  - `Run`.

  Each renderer is proved against a specification function: `DirWrites`
  for `dir`, and `Stream` for `file` and `stdout`.

The model follows the code where it differs from the design description of
the system:

- Every directory level clones the global rule set `b.Rules`
  (bogie/process.go:104) and adds only its own `.bogieignore`. The
  description says a subdirectory extends its parent's rules. In the code,
  and in this model, a subdirectory does not see its parent's override
  file (`DirEntryYieldsSubtree`).
- `_helpers.tmpl` is read again in every directory walked
  (bogie/process.go:102). The description says it applies to the
  application root only. In the model, each level's helper is the one in
  its own directory, or empty when there is none.
- The Go source does not type-check as written. `app.MuteWarning` has no
  field in `ApplicationInput`, and `Values` is a `[]string` passed where a
  `string` is expected. The model gives each application a `muteWarning`
  flag and a single values path, with `""` meaning none.

## Model

| member | source | states |
|---|---|---|
| Config.Bogie.InitRules | bogie/bogie.go:57-61 | installs the default rule set only when none is present and leaves a present one unchanged; afterwards a rule set is always present, so a second call changes nothing |
| Walk.GenContext | bogie/process.go:75-91 | with no environment file, the empty context and no error; otherwise `env` is the decrypted and decoded file and `values` stay nil; a decryption or decoding error is returned unchanged |
| Walk.SetValueContext | bogie/process.go:59-73 | a copy of the base context with the decoded values; with no values path the copy equals the base; `env` is never changed; decode errors are returned |
| Walk.LevelOf | bogie/process.go:102-105 | a level's rules are the global rules (kept as a prefix, never changed) extended only by this directory's `.bogieignore`, or exactly the global rules without one; the helper is this directory's `_helpers.tmpl` text, or empty when it is missing or unreadable |
| Walk.WalkEntriesAppend | bogie/process.go:107-138 | the walk is in enumeration order and compositional: walking `s + t` is walking `s` and then, unless `s` failed, `t` |
| Walk.IgnoredEntrySkipped | bogie/process.go:108-110 | an entry the rules reject contributes nothing, and a rejected directory is not descended |
| Walk.FileEntryYieldsUnit | bogie/process.go:122-136 | a readable file the rules let through yields exactly one unit at its position: path = output joined with its name, template = helper + file text, context = the walk's context |
| Walk.DirEntryYieldsSubtree | bogie/process.go:104-121 | a directory the rules let through inserts the walk of its own listing at its position, at a level built from the global rules, independent of the enclosing level; an error inside it stops the walk |
| Walk.WalkUnitsShareContext | bogie/process.go:132-136 | every unit of a walk carries the same, unchanged context |
| Walk.ReadableWalkSucceeds | bogie/process.go:97-126 | when every directory can be listed and every file read, the walk raises no error: missing helper or override files never fail it |
| Walk.ProcessApplication | bogie/process.go:93-141 | appends to the shared list exactly the units of the specified walk, in order, and returns its error; units appended before an error stay appended |
| Walk.AppUnitsContext | bogie/process.go:33-50 | context copies do not interfere: each unit of an application carries the base context with that application's own values |
| Walk.ApplicationsAppend | bogie/process.go:31-56 | the result for applications `a + b` is the list for `a` followed by the list for `b`; an error in either is the error of the whole |
| Walk.ApplicationsFailIff | bogie/process.go:33-53 | processing all applications fails if and only if some application fails |
| Walk.ProcessApplications | bogie/process.go:21-57 | returns the base-context error, or the concatenation in configured order of every application's walk, or the first error with no partial list |
| Text.TrimSpace | bogie/bogie.go:84 | the trimmed text is empty exactly when the input is all white space, and otherwise starts and ends with a non-space character |
| Text.Quote | bogie/bogie.go:72 | the quoted template text is delimited by double quotes |
| Text.UnescapeEscape | bogie/bogie.go:72 | quoting loses nothing: the escaped text reads back as the original |
| Render.HasContent | bogie/bogie.go:83-86 | true exactly when the buffer holds a character that is not white space |
| Render.RunTemplate | bogie/bogie.go:63-81 | fails exactly when the engine fails; a parse error reads `Line <quoted text>: <error>` plus a newline, and an execution error is returned unchanged; on success the output is the untrimmed render and the flag is whether it has content |
| Render.StreamAppend | bogie/bogie.go:139-151 | the document stream of `s + t` is the stream of `s` followed by, unless `s` failed, the stream of `t` |
| Render.StreamSkipsBlank | bogie/bogie.go:145-150 | a unit rendering to white space only adds neither separator nor text |
| Render.StreamEmitsDocument | bogie/bogie.go:145-150 | a unit with content adds `"\n---\n"` and its untrimmed render, at its position |
| Render.StreamStopsAtError | bogie/bogie.go:140-143 | the first template error stops the stream; later units are not rendered and the text emitted before it stays |
| Render.DirWritesAppend | bogie/bogie.go:89-120 | writing units `s + t` is writing `s` and then, unless that failed, `t` |
| Render.DirUntouched | bogie/bogie.go:95-119 | a path no unit writes content to keeps exactly what it held: blank renders neither create nor replace files |
| Render.DirLastWriteWins | bogie/bogie.go:95-119 | after a complete run, the file at a unit's path holds that unit's render unless a later unit writes content to the same path |
| Render.DirStopsAtError | bogie/bogie.go:90-93 | the first template error stops the writing with `Error when writing to <outPath>: <error>` plus a newline; earlier writes stay |
| Render.RenderTemplateToDir | bogie/bogie.go:88-123 | the files and the error afterwards are those of `DirWrites` over the units |
| Render.FillBuffer | bogie/bogie.go:136-151 | the buffered writer ends up holding the document stream of the units, and the error is the stream's error |
| Render.RenderTemplateToFile | bogie/bogie.go:125-154 | `<outPath>/<outFile>` is truncated and then holds the document stream, flushed on every return, including the documents before an error; no other file changes |
| Render.RenderTemplateToStdout | bogie/bogie.go:156-172 | standard output gains the document stream, and the error is the stream's error |
| Render.ParseFormat | bogie/bogie.go:45-54 | `dir`, `file` and `stdout` select their destinations; any other name is the error `Unknown output <name>` |
| Render.Run | bogie/bogie.go:39-55 | a processing error is returned before any output is touched; an unknown format is rejected with nothing written; otherwise the chosen renderer's outcome, with the other destination unchanged |

## Left out

- Real file-system I/O is left out. This covers `os.MkdirAll`,
  `os.OpenFile`, `io.Copy`, and the buffered writer's flush and close,
  together with their error returns and the messages logged to standard
  error (bogie/bogie.go:96-117, 126-133, 174-176). The disk and standard
  output are modelled as sinks that cannot fail, so these error paths are
  not modelled.
- Directory listing and file reading (`io.ReadDir`, `io.ReadInput`) are
  replaced by the template tree. An application's root comes from
  `Externals.readDir`. A subdirectory is listed as part of the tree, so the
  `<input>/<name>` path strings are not built. The helper and override
  files are read from the directory's listing.
- `io.DecryptFile` and YAML decoding are opaque functions (`decrypt`,
  `unmarshal`). How YAML merges into an existing mapping is left to
  `unmarshal`.
- The template engine is an opaque function of the delimiters, the context
  and the text. This covers text/template, the sprig functions,
  `initFuncs`, `missingkey=error` and how a template reads its context.
- The ignore package is not part of this model. `Ignore` is an opaque
  predicate over the rule set, the name and the directory flag. `Clone`
  is a value copy. `ParseFile` appends the rules `parseRules` gives for the
  override file's text.
- Walk.ProcessApplications and Render.Run require a rule set to be
  present. With a nil `b.Rules`, the ignore package's behaviour is not
  visible, and callers run `InitRules` first.
- The warning logs at bogie/process.go:27-29 and 128-130 are left out.
  They do not affect results. This is why `muteWarning` is carried but
  never read.
- `Join` drops empty elements but does not clean paths the way
  `filepath.Join` does: no `.`/`..` resolution and no collapsing of
  repeated separators.
- Text.Quote escapes only `"`, `\`, newline, tab and carriage return.
  Go's `%q` also escapes other non-printable characters.
- Text.TrimSpace works on Unicode code points. A buffer that is not valid
  UTF-8 is not modelled.
- `SkipImageLookup`, `AppRegex`, `FlaggedSecret` and `OverrideVars` are
  not modelled. The logic here does not read them.
- A context is a value here. The units share the same context value, but
  Go's pointer aliasing between them (and the maps inside a context) is
  not modelled.
