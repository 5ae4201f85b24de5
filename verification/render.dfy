/**
  Rendering and output routing (bogie.go): each unit's template runs
  against its context, renders that are white space only are dropped, and
  the rest go to one of three destinations, chosen once per run: a file
  per unit (`dir`), one file of `---`-separated documents (`file`), or
  the same documents on standard output (`stdout`). The first template
  error stops the run; what was written before it stays written.
 */
module Render {
  import opened Types
  import opened Text
  import opened Config
  import opened Walk

  const Separator := "\n---\n"

  // ---------------------------------------------------------------------
  // Rendering one unit
  // ---------------------------------------------------------------------

  /** `hasContent`: a render counts when something other than white space is left. */
  function HasContent(buf: string): (b: bool)
    ensures b <==> exists k :: 0 <= k < |buf| && !IsSpace(buf[k])
  {
    |TrimSpace(buf)| > 0
  }

  datatype Rendered = Rendered(hasContent: bool, content: string)

  /**
    `runTemplate`: parses and executes `text` against `c`. A parse error
    comes back naming the quoted template text, an execution error as the
    engine raised it; a render comes back untrimmed, flagged by whether it
    holds anything but white space.
   */
  function RunTemplate(x: Externals, d: Delims, c: Context, text: string): (r: Result<Rendered>)
    ensures r.Err? <==> !x.engine(d, c, text).Executed?
    ensures x.engine(d, c, text).ParseFailed? ==>
              r.error == "Line " + Quote(text) + ": " + x.engine(d, c, text).parseError + "\n"
    ensures x.engine(d, c, text).ExecFailed? ==> r.error == x.engine(d, c, text).execError
    ensures r.Ok? ==> r.value.content == x.engine(d, c, text).output
    ensures r.Ok? ==> (r.value.hasContent <==> exists k :: 0 <= k < |r.value.content| && !IsSpace(r.value.content[k]))
  {
    match x.engine(d, c, text)
    case ParseFailed(e) => Err("Line " + Quote(text) + ": " + e + "\n")
    case ExecFailed(e) => Err(e)
    case Executed(out) => Ok(Rendered(HasContent(out), out))
  }

  /** Runs the template of unit `u`. */
  function RunUnit(x: Externals, d: Delims, u: OutputUnit): Result<Rendered>
  {
    RunTemplate(x, d, u.context, u.template)
  }

  // ---------------------------------------------------------------------
  // One stream of documents (`file` and `stdout`)
  // ---------------------------------------------------------------------

  /** What a stream received, and the error that stopped it. */
  datatype Emitted = Emitted(text: string, err: Option<string>)

  /** What one render puts on a stream: the separator and the render, or nothing if it is blank. */
  function Doc(r: Rendered): string
  {
    if r.hasContent then Separator + r.content else ""
  }

  /**
    The documents the units put on one stream: for each unit in order, the
    separator and its render when the render has content, nothing when it
    is blank; the first template error ends the stream.
   */
  function Stream(x: Externals, d: Delims, units: seq<OutputUnit>): Emitted
  {
    if units == [] then Emitted("", None)
    else
      match RunUnit(x, d, units[0])
      case Err(e) => Emitted("", Some(e))
      case Ok(r) =>
        var rest := Stream(x, d, units[1..]);
        Emitted(Doc(r) + rest.text, rest.err)
  }

  /** The stream from unit `i` on: unit `i`'s document, then the stream after it. */
  lemma StreamStep(x: Externals, d: Delims, units: seq<OutputUnit>, i: nat)
    requires i < |units|
    ensures var rest := Stream(x, d, units[i + 1..]);
            Stream(x, d, units[i..]) ==
            match RunUnit(x, d, units[i])
            case Err(e) => Emitted("", Some(e))
            case Ok(r) => Emitted(Doc(r) + rest.text, rest.err)
  {
    assert units[i..][0] == units[i] && units[i..][1..] == units[i + 1..];
  }

  /**
    Advancing past unit `i`, which renders without error: what was written
    so far followed by the stream from `i` on is what was written with
    unit `i`'s document followed by the stream after it.
   */
  lemma StreamAdvance(x: Externals, d: Delims, units: seq<OutputUnit>, i: nat, w: string)
    requires i < |units| && RunUnit(x, d, units[i]).Ok?
    ensures w + Stream(x, d, units[i..]).text ==
            (w + Doc(RunUnit(x, d, units[i]).value)) + Stream(x, d, units[i + 1..]).text
    ensures Stream(x, d, units[i..]).err == Stream(x, d, units[i + 1..]).err
  {
    StreamStep(x, d, units, i);
    ConcatAssoc(w, Doc(RunUnit(x, d, units[i]).value), Stream(x, d, units[i + 1..]).text);
  }

  /** Writing the separator and then the render puts the render's document after `w`. */
  lemma DocAppended(w: string, r: Rendered)
    requires r.hasContent
    ensures (w + Separator) + r.content == w + Doc(r)
  {
    ConcatAssoc(w, Separator, r.content);
  }

  /** The stream for `s + t` is the stream for `s` and then, unless it failed, that for `t`. */
  lemma {:induction false} StreamAppend(x: Externals, d: Delims, s: seq<OutputUnit>, t: seq<OutputUnit>)
    ensures Stream(x, d, s + t) ==
            if Stream(x, d, s).err.Some? then Stream(x, d, s)
            else Emitted(Stream(x, d, s).text + Stream(x, d, t).text, Stream(x, d, t).err)
  {
    if s == [] {
      assert s + t == t;
    } else {
      assert (s + t)[0] == s[0] && (s + t)[1..] == s[1..] + t;
      StreamAppend(x, d, s[1..], t);
      match RunUnit(x, d, s[0])
      case Err(e) =>
      case Ok(r) =>
        ConcatAssoc(Doc(r), Stream(x, d, s[1..]).text, Stream(x, d, t).text);
    }
  }

  /** A unit whose render is blank adds neither a separator nor text. */
  lemma StreamSkipsBlank(x: Externals, d: Delims, s: seq<OutputUnit>, u: OutputUnit, t: seq<OutputUnit>)
    requires RunUnit(x, d, u).Ok? && !RunUnit(x, d, u).value.hasContent
    ensures Stream(x, d, s + [u] + t) == Stream(x, d, s + t)
  {
    StreamAppend(x, d, s + [u], t);
    StreamAppend(x, d, s, [u]);
    StreamAppend(x, d, s, t);
    assert [u][1..] == [];
    assert Stream(x, d, s).text + "" == Stream(x, d, s).text;
  }

  /** A unit whose render has content adds the separator and its untrimmed render, in place. */
  lemma StreamEmitsDocument(x: Externals, d: Delims, s: seq<OutputUnit>, u: OutputUnit, t: seq<OutputUnit>)
    requires RunUnit(x, d, u).Ok? && RunUnit(x, d, u).value.hasContent
    requires Stream(x, d, s).err.None?
    ensures Stream(x, d, s + [u] + t) ==
            Emitted(Stream(x, d, s).text + Separator + RunUnit(x, d, u).value.content + Stream(x, d, t).text,
                    Stream(x, d, t).err)
  {
    StreamAppend(x, d, s + [u], t);
    StreamAppend(x, d, s, [u]);
    assert [u][1..] == [];
    var a := Stream(x, d, s).text;
    var c := RunUnit(x, d, u).value.content;
    var rest := Stream(x, d, t).text;
    assert Stream(x, d, [u]).text == Doc(RunUnit(x, d, u).value) + "";
    assert Doc(RunUnit(x, d, u).value) + "" == Separator + c;
    calc {
      (a + (Separator + c)) + rest;
      { ConcatAssoc(a, Separator, c); }
      ((a + Separator) + c) + rest;
    }
  }

  /**
    The first template error stops the stream: later units are not
    rendered, and what was emitted before stays.
   */
  lemma StreamStopsAtError(x: Externals, d: Delims, s: seq<OutputUnit>, u: OutputUnit, t: seq<OutputUnit>)
    requires RunUnit(x, d, u).Err?
    requires Stream(x, d, s).err.None?
    ensures Stream(x, d, s + [u] + t) == Emitted(Stream(x, d, s).text, Some(RunUnit(x, d, u).error))
  {
    StreamAppend(x, d, s + [u], t);
    StreamAppend(x, d, s, [u]);
    assert Stream(x, d, s).text + "" == Stream(x, d, s).text;
  }

  // ---------------------------------------------------------------------
  // One file per unit (`dir`)
  // ---------------------------------------------------------------------

  /** What the files hold afterwards, and the error that stopped the writing. */
  datatype Written = Written(files: map<string, string>, err: Option<string>)

  /** Whether unit `u` renders without error to something that is not blank. */
  predicate Writes(x: Externals, d: Delims, u: OutputUnit)
  {
    RunUnit(x, d, u).Ok? && RunUnit(x, d, u).value.hasContent
  }

  /**
    The files after writing the units in order into `files`: a unit with
    content replaces the file at its output path with its render, a blank
    one writes nothing; a template error stops the writing with a message
    naming the unit's output path.
   */
  function DirWrites(x: Externals, d: Delims, units: seq<OutputUnit>, files: map<string, string>): Written
  {
    if units == [] then Written(files, None)
    else
      var u := units[0];
      match RunUnit(x, d, u)
      case Err(e) => Written(files, Some("Error when writing to " + u.outPath + ": " + e + "\n"))
      case Ok(r) => DirWrites(x, d, units[1..], if r.hasContent then files[u.outPath := r.content] else files)
  }

  /** Writing `s + t` is writing `s` and then, unless that failed, `t`. */
  lemma {:induction false} DirWritesAppend(x: Externals, d: Delims, s: seq<OutputUnit>, t: seq<OutputUnit>,
                                           files: map<string, string>)
    ensures DirWrites(x, d, s + t, files) ==
            if DirWrites(x, d, s, files).err.Some? then DirWrites(x, d, s, files)
            else DirWrites(x, d, t, DirWrites(x, d, s, files).files)
  {
    if s == [] {
      assert s + t == t;
    } else {
      assert (s + t)[0] == s[0] && (s + t)[1..] == s[1..] + t;
      match RunUnit(x, d, s[0])
      case Err(e) =>
      case Ok(r) =>
        DirWritesAppend(x, d, s[1..], t, if r.hasContent then files[s[0].outPath := r.content] else files);
    }
  }

  /**
    A path no unit writes content to keeps what it held before: a unit
    that renders blank does not remove or replace an existing file.
   */
  lemma {:induction false} DirUntouched(x: Externals, d: Delims, units: seq<OutputUnit>,
                                        files: map<string, string>, p: string)
    requires forall i :: 0 <= i < |units| && units[i].outPath == p ==> !Writes(x, d, units[i])
    ensures var after := DirWrites(x, d, units, files).files;
            (p in after <==> p in files) && (p in files ==> after[p] == files[p])
  {
    if units != [] {
      var u := units[0];
      assert forall i :: 0 <= i < |units[1..]| ==> units[1..][i] == units[i + 1];
      match RunUnit(x, d, u)
      case Err(e) =>
      case Ok(r) =>
        DirUntouched(x, d, units[1..], if r.hasContent then files[u.outPath := r.content] else files, p);
    }
  }

  /**
    When writing completes, the file at a unit's output path holds that
    unit's render if no later unit writes content to the same path: the
    last write wins.
   */
  lemma {:induction false} DirLastWriteWins(x: Externals, d: Delims, units: seq<OutputUnit>,
                                            files: map<string, string>, i: nat)
    requires i < |units| && Writes(x, d, units[i])
    requires forall j :: i < j < |units| && units[j].outPath == units[i].outPath ==> !Writes(x, d, units[j])
    requires DirWrites(x, d, units, files).err.None?
    ensures var after := DirWrites(x, d, units, files).files;
            units[i].outPath in after && after[units[i].outPath] == RunUnit(x, d, units[i]).value.content
  {
    var u := units[0];
    assert RunUnit(x, d, u).Ok?;
    var r := RunUnit(x, d, u).value;
    var next := if r.hasContent then files[u.outPath := r.content] else files;
    assert DirWrites(x, d, units, files) == DirWrites(x, d, units[1..], next);
    if i == 0 {
      forall j | 0 <= j < |units[1..]| && units[1..][j].outPath == u.outPath
        ensures !Writes(x, d, units[1..][j])
      {
        assert units[1..][j] == units[j + 1];
      }
      DirUntouched(x, d, units[1..], next, u.outPath);
    } else {
      assert units[1..][i - 1] == units[i];
      forall j | i - 1 < j < |units[1..]| && units[1..][j].outPath == units[i].outPath
        ensures !Writes(x, d, units[1..][j])
      {
        assert units[1..][j] == units[j + 1];
      }
      DirLastWriteWins(x, d, units[1..], next, i - 1);
    }
  }

  /**
    The first template error stops the writing with a message naming the
    unit's output path; the files written before it stay as written.
   */
  lemma DirStopsAtError(x: Externals, d: Delims, s: seq<OutputUnit>, u: OutputUnit, t: seq<OutputUnit>,
                        files: map<string, string>)
    requires RunUnit(x, d, u).Err?
    requires DirWrites(x, d, s, files).err.None?
    ensures DirWrites(x, d, s + [u] + t, files) ==
            Written(DirWrites(x, d, s, files).files,
                    Some("Error when writing to " + u.outPath + ": " + RunUnit(x, d, u).error + "\n"))
  {
    DirWritesAppend(x, d, s + [u], t, files);
    DirWritesAppend(x, d, s, [u], files);
  }

  // ---------------------------------------------------------------------
  // The destinations
  // ---------------------------------------------------------------------

  /** The file system, as the files it holds by path. */
  class Disk {
    var files: map<string, string>

    constructor (files: map<string, string>)
      ensures this.files == files
    {
      this.files := files;
    }
  }

  /** Standard output, as the text written to it so far. */
  class Console {
    var text: string

    constructor ()
      ensures text == ""
    {
      text := "";
    }
  }

  /** `renderTemplateToDir`: writes each unit with content to its own path. */
  method RenderTemplateToDir(x: Externals, b: Bogie, units: seq<OutputUnit>, disk: Disk)
    returns (err: Option<string>)
    modifies disk
    ensures disk.files == DirWrites(x, b.Delimiters(), units, old(disk.files)).files
    ensures err == DirWrites(x, b.Delimiters(), units, old(disk.files)).err
  {
    var d := b.Delimiters();
    var i := 0;
    while i < |units|
      invariant 0 <= i <= |units|
      invariant DirWrites(x, d, units, old(disk.files)) == DirWrites(x, d, units[i..], disk.files)
    {
      var u := units[i];
      assert units[i..][0] == u && units[i..][1..] == units[i + 1..];
      var r := RunTemplate(x, d, u.context, u.template);
      if r.Err? {
        return Some("Error when writing to " + u.outPath + ": " + r.error + "\n");
      }
      if r.value.hasContent {
        disk.files := disk.files[u.outPath := r.value.content];
      }
      i := i + 1;
    }
    return None;
  }

  /**
    The loop of `renderTemplateToFile`: fills the buffered writer with the
    stream of documents, stopping at the first template error.
   */
  method FillBuffer(x: Externals, d: Delims, units: seq<OutputUnit>)
    returns (w: string, err: Option<string>)
    ensures w == Stream(x, d, units).text && err == Stream(x, d, units).err
  {
    w := "";
    err := None;
    var i := 0;
    while i < |units|
      invariant 0 <= i <= |units|
      invariant Stream(x, d, units).text == w + Stream(x, d, units[i..]).text
      invariant Stream(x, d, units).err == Stream(x, d, units[i..]).err
    {
      var u := units[i];
      var r := RunTemplate(x, d, u.context, u.template);
      if r.Err? {
        assert Stream(x, d, units[i..]) == Emitted("", Some(r.error)) by {
          StreamStep(x, d, units, i);
        }
        assert w + "" == w;
        return w, Some(r.error);
      }
      assert Stream(x, d, units).text == (w + Doc(r.value)) + Stream(x, d, units[i + 1..]).text
          && Stream(x, d, units).err == Stream(x, d, units[i + 1..]).err by {
        assert RunUnit(x, d, units[i]) == r;
        StreamAdvance(x, d, units, i, w);
      }
      ghost var w0 := w;
      if r.value.hasContent {
        w := w + Separator;
        w := w + r.value.content;
        DocAppended(w0, r.value);
      }
      assert w == w0 + Doc(r.value);
      i := i + 1;
    }
    assert w + "" == w;
  }

  /**
    `renderTemplateToFile`: truncates `<outPath>/<outFile>` and writes the
    stream of documents into it through a buffer that is flushed on every
    return, so a template error leaves the documents before it in the file.
   */
  method RenderTemplateToFile(x: Externals, b: Bogie, units: seq<OutputUnit>, disk: Disk)
    returns (err: Option<string>)
    modifies disk
    ensures disk.files == old(disk.files)[b.outPath + "/" + b.outFile := Stream(x, b.Delimiters(), units).text]
    ensures err == Stream(x, b.Delimiters(), units).err
  {
    var path := b.outPath + "/" + b.outFile;
    ghost var before := disk.files;
    disk.files := disk.files[path := ""];
    var w;
    w, err := FillBuffer(x, b.Delimiters(), units);
    // the deferred flush
    Overwrite(before, path, "", w);
    disk.files := disk.files[path := w];
  }

  /** Writing a path twice leaves what the second write put there. */
  lemma Overwrite(m: map<string, string>, k: string, a: string, b: string)
    ensures m[k := a][k := b] == m[k := b]
  {
  }

  /** `renderTemplateToSTDOUT`: writes the stream of documents to standard output. */
  method RenderTemplateToStdout(x: Externals, b: Bogie, units: seq<OutputUnit>, console: Console)
    returns (err: Option<string>)
    modifies console
    ensures console.text == old(console.text) + Stream(x, b.Delimiters(), units).text
    ensures err == Stream(x, b.Delimiters(), units).err
  {
    var d := b.Delimiters();
    // what this call has written so far
    ghost var start, w := console.text, "";
    var i := 0;
    err := None;
    while i < |units|
      invariant 0 <= i <= |units|
      invariant console.text == start + w
      invariant Stream(x, d, units).text == w + Stream(x, d, units[i..]).text
      invariant Stream(x, d, units).err == Stream(x, d, units[i..]).err
    {
      var u := units[i];
      var r := RunTemplate(x, d, u.context, u.template);
      if r.Err? {
        assert Stream(x, d, units[i..]) == Emitted("", Some(r.error)) by {
          StreamStep(x, d, units, i);
        }
        assert w + "" == w;
        err := Some(r.error);
        break;
      }
      assert Stream(x, d, units).text == (w + Doc(r.value)) + Stream(x, d, units[i + 1..]).text
          && Stream(x, d, units).err == Stream(x, d, units[i + 1..]).err by {
        assert RunUnit(x, d, units[i]) == r;
        StreamAdvance(x, d, units, i, w);
      }
      WriteDoc(console, r.value);
      assert console.text == start + (w + Doc(r.value)) by {
        ConcatAssoc(start, w, Doc(r.value));
      }
      w := w + Doc(r.value);
      i := i + 1;
    }
    assert w + "" == w;
  }

  /** Writes one render to standard output: the separator and the render, if it has content. */
  method WriteDoc(console: Console, r: Rendered)
    modifies console
    ensures console.text == old(console.text) + Doc(r)
  {
    if r.hasContent {
      console.text := console.text + Separator;
      console.text := console.text + r.content;
      DocAppended(old(console.text), r);
    }
  }

  // ---------------------------------------------------------------------
  // The run
  // ---------------------------------------------------------------------

  datatype Format = DirFormat | FileFormat | StdoutFormat

  /** The output format a name selects; any other name is an error naming it. */
  function ParseFormat(name: string): (r: Result<Format>)
    ensures r == Ok(DirFormat) <==> name == "dir"
    ensures r == Ok(FileFormat) <==> name == "file"
    ensures r == Ok(StdoutFormat) <==> name == "stdout"
    ensures r.Err? <==> name !in {"dir", "file", "stdout"}
    ensures r.Err? ==> r.error == "Unknown output " + name
  {
    if name == "dir" then Ok(DirFormat)
    else if name == "file" then Ok(FileFormat)
    else if name == "stdout" then Ok(StdoutFormat)
    else Err("Unknown output " + name)
  }

  /**
    `Run`: builds the units of all applications and routes them to the
    configured destination. If building fails, or the format is unknown,
    nothing is written.
   */
  method Run(x: Externals, b: Bogie, disk: Disk, console: Console) returns (err: Option<string>)
    requires b.rules.Some?
    modifies disk, console
    ensures var p := ProcessAll(x, b.rules.value, b.envFile, b.outPath, b.apps);
            p.Err? ==> err == Some(p.error) && disk.files == old(disk.files) && console.text == old(console.text)
    ensures var p := ProcessAll(x, b.rules.value, b.envFile, b.outPath, b.apps);
            p.Ok? && ParseFormat(b.outFormat).Err? ==>
              err == Some("Unknown output " + b.outFormat)
              && disk.files == old(disk.files) && console.text == old(console.text)
    ensures var p := ProcessAll(x, b.rules.value, b.envFile, b.outPath, b.apps);
            p.Ok? && b.outFormat == "dir" ==>
              var w := DirWrites(x, b.Delimiters(), p.value, old(disk.files));
              disk.files == w.files && err == w.err && console.text == old(console.text)
    ensures var p := ProcessAll(x, b.rules.value, b.envFile, b.outPath, b.apps);
            p.Ok? && b.outFormat == "file" ==>
              var s := Stream(x, b.Delimiters(), p.value);
              disk.files == old(disk.files)[b.outPath + "/" + b.outFile := s.text]
              && err == s.err && console.text == old(console.text)
    ensures var p := ProcessAll(x, b.rules.value, b.envFile, b.outPath, b.apps);
            p.Ok? && b.outFormat == "stdout" ==>
              var s := Stream(x, b.Delimiters(), p.value);
              console.text == old(console.text) + s.text && err == s.err && disk.files == old(disk.files)
  {
    var apps := ProcessApplications(x, b);
    if apps.Err? {
      return Some(apps.error);
    }
    var format := ParseFormat(b.outFormat);
    match format
    case Err(e) =>
      return Some(e);
    case Ok(DirFormat) =>
      err := RenderTemplateToDir(x, b, apps.value, disk);
    case Ok(FileFormat) =>
      err := RenderTemplateToFile(x, b, apps.value, disk);
    case Ok(StdoutFormat) =>
      err := RenderTemplateToStdout(x, b, apps.value, console);
  }
}
