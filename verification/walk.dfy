/**
  Context building and the template-tree walk (process.go): one base
  context from the environment file, one value copy of it per application
  with that application's values, and a depth-first walk of each
  application's template directory that turns every file the ignore rules
  let through into one output unit.
 */
module Walk {
  import opened Types
  import opened Config

  const HelperFile := "_helpers.tmpl"
  const IgnoreFile := ".bogieignore"

  // ---------------------------------------------------------------------
  // Contexts
  // ---------------------------------------------------------------------

  /** Decrypts and decodes a YAML source into `into`. */
  function Decode(x: Externals, path: string, into: Option<Mapping>): Result<Option<Mapping>>
  {
    match x.decrypt(path)
    case Err(e) => Err(e)
    case Ok(plain) => x.unmarshal(into, plain)
  }

  /**
    `genContext`: the base context. Without an environment file it is the
    empty context and no error; otherwise its `env` is the decoded file and
    its `values` stay nil. A decryption or decoding failure is returned as is.
   */
  function GenContext(x: Externals, envFile: string): (r: Result<Context>)
    ensures envFile == "" ==> r == Ok(Context(None, None))
    ensures r.Ok? ==> r.value.values == None
    ensures envFile != "" && x.decrypt(envFile).Err? ==> r == Err(x.decrypt(envFile).error)
    ensures envFile != "" && x.decrypt(envFile).Ok? ==>
              match x.unmarshal(None, x.decrypt(envFile).value)
              case Err(e) => r == Err(e)
              case Ok(env) => r == Ok(Context(env, None))
  {
    if envFile == "" then Ok(Context(None, None))
    else
      match Decode(x, envFile, None)
      case Err(e) => Err(e)
      case Ok(env) => Ok(Context(env, None))
  }

  /**
    `setValueContext`: a copy of the base context whose `values` are the
    decoded values file. The base is taken by value, so it is never changed;
    with no values file the copy equals the base.
   */
  function SetValueContext(x: Externals, values: string, c: Context): (r: Result<Context>)
    ensures values == "" ==> r == Ok(c)
    ensures r.Ok? ==> r.value.env == c.env
    ensures values != "" ==>
              match Decode(x, values, c.values)
              case Err(e) => r == Err(e)
              case Ok(v) => r == Ok(c.(values := v))
  {
    if values == "" then Ok(c)
    else
      match Decode(x, values, c.values)
      case Err(e) => Err(e)
      case Ok(v) => Ok(c.(values := v))
  }

  // ---------------------------------------------------------------------
  // One directory level
  // ---------------------------------------------------------------------

  /**
    What reading `<dir>/<name>` gives when `entries` is the listing of
    `dir`: the text of a readable file of that name, or nothing.
   */
  function FileText(entries: seq<Node>, name: string): (r: Option<string>)
    ensures r.Some? ==> exists i :: 0 <= i < |entries| && entries[i] == File(name, Ok(r.value))
    ensures (forall i :: 0 <= i < |entries| ==> entries[i].name != name) ==> r.None?
  {
    if entries == [] then None
    else if entries[0].name == name then
      (if entries[0].File? && entries[0].text.Ok? then Some(entries[0].text.value) else None)
    else FileText(entries[1..], name)
  }

  /** The state one directory level works with: its rule set and helper text. */
  datatype Level = Level(rules: RuleSet, helper: string)

  /**
    The level of a directory with listing `entries`: a clone of the GLOBAL
    rule set extended with this directory's own `.bogieignore`, and the
    text of this directory's own `_helpers.tmpl`. A missing or unreadable
    helper or override file is no error: it adds nothing.
   */
  function LevelOf(x: Externals, global: RuleSet, entries: seq<Node>): (l: Level)
    ensures |global| <= |l.rules| && l.rules[..|global|] == global
    ensures FileText(entries, IgnoreFile).None? ==> l.rules == global
    ensures FileText(entries, IgnoreFile).Some? ==>
              l.rules[|global|..] == x.parseRules(FileText(entries, IgnoreFile).value)
    ensures l.helper == match FileText(entries, HelperFile) case Some(h) => h case None => ""
  {
    var extra := match FileText(entries, IgnoreFile) case Some(t) => x.parseRules(t) case None => [];
    var helper := match FileText(entries, HelperFile) case Some(h) => h case None => "";
    Level(global + extra, helper)
  }

  // ---------------------------------------------------------------------
  // The walk, as a specification
  // ---------------------------------------------------------------------

  /**
    What a walk produced: the units appended, in order, and the error that
    stopped it, if any (the units appended before an error are kept, as in
    the shared slice the walk appends to).
   */
  datatype Walked = Walked(units: seq<OutputUnit>, err: Option<string>)

  const Nothing := Walked([], None)

  /** Walking `a` and then, unless `a` failed, `b`. */
  function AndThen(a: Walked, b: Walked): Walked
  {
    if a.err.Some? then a else Walked(a.units + b.units, b.err)
  }

  /**
    The walk of a directory into the output directory `output`: an
    unlistable directory is an error; otherwise its entries are walked at
    the level its own files give it.
   */
  function WalkDir(x: Externals, global: RuleSet, ctx: Context, output: string, d: Directory): Walked
    decreases d
  {
    match d
    case Unlistable(m) => Walked([], Some(m))
    case Listing(es) => WalkEntries(x, global, LevelOf(x, global, es), ctx, output, es)
  }

  /**
    The walk of the entries `es` of one directory at level `level`, in
    enumeration order. An ignored entry is skipped and, if a directory,
    not descended; a subdirectory is walked at its own level, built from the
    global rule set; a readable file becomes one unit, an unreadable one an
    error.
   */
  function WalkEntries(x: Externals, global: RuleSet, level: Level, ctx: Context,
                       output: string, es: seq<Node>): Walked
    decreases es
  {
    if es == [] then Nothing
    else
      var e := es[0];
      var first :=
        if x.ignore(level.rules, e.name, e.Dir?) then Nothing
        else if e.Dir? then WalkDir(x, global, ctx, Join(output, e.name), e.dir)
        else if e.text.Err? then Walked([], Some(e.text.error))
        else Walked([OutputUnit(Join(output, e.name), level.helper + e.text.value, ctx)], None);
      AndThen(first, WalkEntries(x, global, level, ctx, output, es[1..]))
  }

  // ---------------------------------------------------------------------
  // Properties of the walk
  // ---------------------------------------------------------------------

  lemma AndThenAssoc(a: Walked, b: Walked, c: Walked)
    ensures AndThen(AndThen(a, b), c) == AndThen(a, AndThen(b, c))
  {
    if a.err.None? && b.err.None? {
      assert (a.units + b.units) + c.units == a.units + (b.units + c.units);
    }
  }

  /** What the single entry `e` contributes at a given level. */
  function EntryWalk(x: Externals, global: RuleSet, level: Level, ctx: Context, output: string, e: Node): Walked
  {
    if x.ignore(level.rules, e.name, e.Dir?) then Nothing
    else if e.Dir? then WalkDir(x, global, ctx, Join(output, e.name), e.dir)
    else if e.text.Err? then Walked([], Some(e.text.error))
    else Walked([OutputUnit(Join(output, e.name), level.helper + e.text.value, ctx)], None)
  }

  lemma WalkSingle(x: Externals, global: RuleSet, level: Level, ctx: Context, output: string, e: Node)
    ensures WalkEntries(x, global, level, ctx, output, [e]) == EntryWalk(x, global, level, ctx, output, e)
  {
    assert [e][1..] == [];
    var first := EntryWalk(x, global, level, ctx, output, e);
    assert first.units + [] == first.units;
  }

  /**
    The walk is compositional: walking `s + t` is walking `s` and then,
    if `s` raised no error, `t`.
   */
  lemma {:induction false} WalkEntriesAppend(x: Externals, global: RuleSet, level: Level, ctx: Context,
                                             output: string, s: seq<Node>, t: seq<Node>)
    ensures WalkEntries(x, global, level, ctx, output, s + t) ==
            AndThen(WalkEntries(x, global, level, ctx, output, s), WalkEntries(x, global, level, ctx, output, t))
  {
    if s == [] {
      assert s + t == t;
    } else {
      assert (s + t)[0] == s[0] && (s + t)[1..] == s[1..] + t;
      WalkEntriesAppend(x, global, level, ctx, output, s[1..], t);
      var first := EntryWalk(x, global, level, ctx, output, s[0]);
      var rest := WalkEntries(x, global, level, ctx, output, s[1..]);
      var tail := WalkEntries(x, global, level, ctx, output, t);
      AndThenAssoc(first, rest, tail);
    }
  }

  /** An ignored entry contributes no units and is not descended. */
  lemma IgnoredEntrySkipped(x: Externals, global: RuleSet, level: Level, ctx: Context,
                            output: string, s: seq<Node>, e: Node, t: seq<Node>)
    requires x.ignore(level.rules, e.name, e.Dir?)
    ensures WalkEntries(x, global, level, ctx, output, s + [e] + t) ==
            WalkEntries(x, global, level, ctx, output, s + t)
  {
    WalkEntriesAppend(x, global, level, ctx, output, s + [e], t);
    WalkEntriesAppend(x, global, level, ctx, output, s, [e]);
    WalkEntriesAppend(x, global, level, ctx, output, s, t);
    WalkSingle(x, global, level, ctx, output, e);
    var before := WalkEntries(x, global, level, ctx, output, s);
    assert before.units + [] == before.units;
  }

  /**
    A readable file the rules let through yields exactly one unit, at its
    place in the enumeration order: its output path is the output
    directory joined with its name, its template the level's helper text
    followed by the file's text, and its context the walk's context.
   */
  lemma FileEntryYieldsUnit(x: Externals, global: RuleSet, level: Level, ctx: Context,
                            output: string, s: seq<Node>, n: string, text: string, t: seq<Node>)
    requires !x.ignore(level.rules, n, false)
    requires WalkEntries(x, global, level, ctx, output, s).err.None?
    ensures WalkEntries(x, global, level, ctx, output, s + [File(n, Ok(text))] + t) ==
            Walked(WalkEntries(x, global, level, ctx, output, s).units
                     + [OutputUnit(Join(output, n), level.helper + text, ctx)]
                     + WalkEntries(x, global, level, ctx, output, t).units,
                   WalkEntries(x, global, level, ctx, output, t).err)
  {
    var e := File(n, Ok(text));
    WalkEntriesAppend(x, global, level, ctx, output, s + [e], t);
    WalkEntriesAppend(x, global, level, ctx, output, s, [e]);
    WalkSingle(x, global, level, ctx, output, e);
  }

  /**
    A directory the rules let through contributes, at its place, exactly
    the walk of its own listing, at a level built from the GLOBAL rule set
    and its own files: the enclosing level (its override rules and its
    helper) plays no part in it.
   */
  lemma DirEntryYieldsSubtree(x: Externals, global: RuleSet, level: Level, ctx: Context,
                              output: string, s: seq<Node>, n: string, sub: seq<Node>, t: seq<Node>)
    requires !x.ignore(level.rules, n, true)
    requires WalkEntries(x, global, level, ctx, output, s).err.None?
    ensures var inner := WalkEntries(x, global, LevelOf(x, global, sub), ctx, Join(output, n), sub);
            WalkEntries(x, global, level, ctx, output, s + [Dir(n, Listing(sub))] + t) ==
            if inner.err.Some? then
              Walked(WalkEntries(x, global, level, ctx, output, s).units + inner.units, inner.err)
            else
              Walked(WalkEntries(x, global, level, ctx, output, s).units + inner.units
                       + WalkEntries(x, global, level, ctx, output, t).units,
                     WalkEntries(x, global, level, ctx, output, t).err)
  {
    var e := Dir(n, Listing(sub));
    WalkEntriesAppend(x, global, level, ctx, output, s + [e], t);
    WalkEntriesAppend(x, global, level, ctx, output, s, [e]);
    WalkSingle(x, global, level, ctx, output, e);
  }

  /** Every unit of a walk carries the walk's context, shared and unchanged. */
  lemma {:induction false} WalkUnitsShareContext(x: Externals, global: RuleSet, level: Level, ctx: Context,
                                                 output: string, es: seq<Node>)
    ensures forall u <- WalkEntries(x, global, level, ctx, output, es).units :: u.context == ctx
    decreases es
  {
    if es != [] {
      var e := es[0];
      WalkUnitsShareContext(x, global, level, ctx, output, es[1..]);
      if !x.ignore(level.rules, e.name, e.Dir?) && e.Dir? && e.dir.Listing? {
        var sub := e.dir.entries;
        WalkUnitsShareContext(x, global, LevelOf(x, global, sub), ctx, Join(output, e.name), sub);
      }
    }
  }

  /** A tree in which every directory can be listed and every file read. */
  predicate Readable(es: seq<Node>)
    decreases es
  {
    forall i :: 0 <= i < |es| ==>
      if es[i].File? then es[i].text.Ok?
      else es[i].dir.Listing? && Readable(es[i].dir.entries)
  }

  /**
    Only an unlistable directory or an unreadable file the rules let
    through can make the walk fail; a missing helper or override file never
    does.
   */
  lemma {:induction false} ReadableWalkSucceeds(x: Externals, global: RuleSet, level: Level, ctx: Context,
                                                output: string, es: seq<Node>)
    requires Readable(es)
    ensures WalkEntries(x, global, level, ctx, output, es).err.None?
    decreases es
  {
    if es != [] {
      var e := es[0];
      assert Readable(es[1..]) by {
        forall i | 0 <= i < |es[1..]|
          ensures if es[1..][i].File? then es[1..][i].text.Ok?
                  else es[1..][i].dir.Listing? && Readable(es[1..][i].dir.entries)
        {
          assert es[1..][i] == es[i + 1];
        }
      }
      ReadableWalkSucceeds(x, global, level, ctx, output, es[1..]);
      if !x.ignore(level.rules, e.name, e.Dir?) && e.Dir? {
        var sub := e.dir.entries;
        ReadableWalkSucceeds(x, global, LevelOf(x, global, sub), ctx, Join(output, e.name), sub);
      }
    }
  }

  lemma ConcatAssoc<T>(a: seq<T>, b: seq<T>, c: seq<T>)
    ensures (a + b) + c == a + (b + c)
  {
  }

  /** One step of a walk over `es`: the entries before `i`, entry `i`, the rest. */
  lemma WalkStep(x: Externals, global: RuleSet, level: Level, ctx: Context, output: string,
                 es: seq<Node>, i: nat)
    requires i < |es|
    ensures WalkEntries(x, global, level, ctx, output, es[..i + 1]) ==
            AndThen(WalkEntries(x, global, level, ctx, output, es[..i]), EntryWalk(x, global, level, ctx, output, es[i]))
    ensures WalkEntries(x, global, level, ctx, output, es) ==
            AndThen(WalkEntries(x, global, level, ctx, output, es[..i + 1]),
                    WalkEntries(x, global, level, ctx, output, es[i + 1..]))
  {
    assert es[..i + 1] == es[..i] + [es[i]];
    assert es[..i + 1] + es[i + 1..] == es;
    WalkEntriesAppend(x, global, level, ctx, output, es[..i], [es[i]]);
    WalkEntriesAppend(x, global, level, ctx, output, es[..i + 1], es[i + 1..]);
    WalkSingle(x, global, level, ctx, output, es[i]);
  }

  // ---------------------------------------------------------------------
  // The walk, as the source runs it
  // ---------------------------------------------------------------------

  /** The shared slice the walk appends units to (`*conf.appOutputs`). */
  class Outputs {
    var units: seq<OutputUnit>

    constructor ()
      ensures units == []
    {
      units := [];
    }
  }

  /**
    The per-call configuration of `processApplication`: `input` is the
    directory to walk, as listing it gives it; `rules` is the global rule
    set `b.Rules`.
   */
  datatype WalkConfig = WalkConfig(
    muteWarning: bool,
    input: Directory,
    output: string,
    c: Context,
    rules: RuleSet)

  /**
    `processApplication`: appends to `acc` the units of the walk of
    `conf.input`, in order, and returns the error that stopped it.
   */
  method ProcessApplication(x: Externals, conf: WalkConfig, acc: Outputs) returns (err: Option<string>)
    modifies acc
    decreases conf.input
    ensures acc.units == old(acc.units) + WalkDir(x, conf.rules, conf.c, conf.output, conf.input).units
    ensures err == WalkDir(x, conf.rules, conf.c, conf.output, conf.input).err
  {
    if conf.input.Unlistable? {
      return Some(conf.input.error);
    }
    var entries := conf.input.entries;
    var output := conf.output;
    // the helper text and this level's clone of the global rules
    var level := LevelOf(x, conf.rules, entries);
    ghost var start := acc.units;
    ghost var whole := WalkDir(x, conf.rules, conf.c, output, conf.input);
    assert whole == WalkEntries(x, conf.rules, level, conf.c, output, entries);
    var i := 0;
    while i < |entries|
      invariant 0 <= i <= |entries|
      invariant WalkEntries(x, conf.rules, level, conf.c, output, entries[..i]).err.None?
      invariant acc.units == start + WalkEntries(x, conf.rules, level, conf.c, output, entries[..i]).units
    {
      var entry := entries[i];
      ghost var done := WalkEntries(x, conf.rules, level, conf.c, output, entries[..i]);
      ghost var step := EntryWalk(x, conf.rules, level, conf.c, output, entry);
      assert WalkEntries(x, conf.rules, level, conf.c, output, entries[..i + 1]) == AndThen(done, step)
          && whole == AndThen(AndThen(done, step), WalkEntries(x, conf.rules, level, conf.c, output, entries[i + 1..])) by {
        WalkStep(x, conf.rules, level, conf.c, output, entries, i);
      }
      if x.ignore(level.rules, entry.name, entry.Dir?) {
        assert AndThen(done, step) == done by {
          assert done.units + [] == done.units;
        }
        i := i + 1;
        continue;
      }
      var nextOutPath := Join(output, entry.name);
      if entry.Dir? {
        // the copy of the configuration the source passes down
        var sub := conf.(input := entry.dir, output := nextOutPath);
        assert step == WalkDir(x, sub.rules, sub.c, sub.output, sub.input);
        var e := ProcessApplication(x, sub, acc);
        assert acc.units == start + AndThen(done, step).units by {
          ConcatAssoc(start, done.units, step.units);
        }
        if e.Some? {
          assert whole == AndThen(done, step);
          return e;
        }
      } else {
        if entry.text.Err? {
          assert whole == AndThen(done, step) && whole.units == done.units by {
            assert done.units + [] == done.units;
          }
          return Some(entry.text.error);
        }
        acc.units := acc.units + [OutputUnit(nextOutPath, level.helper + entry.text.value, conf.c)];
        assert acc.units == start + AndThen(done, step).units by {
          ConcatAssoc(start, done.units, step.units);
        }
      }
      i := i + 1;
    }
    assert entries[..i] == entries;
    return None;
  }

  // ---------------------------------------------------------------------
  // All applications
  // ---------------------------------------------------------------------

  /**
    The units of one application: its context is a copy of the base with
    its own values, and its units are the walk of its template root into
    `<outPath>/<name>`.
   */
  function AppUnits(x: Externals, global: RuleSet, base: Context, outPath: string,
                    app: ApplicationInput): Result<seq<OutputUnit>>
  {
    match SetValueContext(x, app.values, base)
    case Err(e) => Err(e)
    case Ok(c) =>
      var w := WalkDir(x, global, c, Join(outPath, app.name), x.readDir(app.templates));
      if w.err.Some? then Err(w.err.value) else Ok(w.units)
  }

  /**
    Context copies do not interfere: every unit of an application carries
    the base context with that application's own values, whatever the
    other applications' values are.
   */
  lemma AppUnitsContext(x: Externals, global: RuleSet, base: Context, outPath: string,
                        app: ApplicationInput)
    requires AppUnits(x, global, base, outPath, app).Ok?
    ensures SetValueContext(x, app.values, base).Ok?
    ensures forall u <- AppUnits(x, global, base, outPath, app).value ::
              u.context == SetValueContext(x, app.values, base).value
  {
    var c := SetValueContext(x, app.values, base).value;
    var d := x.readDir(app.templates);
    if d.Listing? {
      WalkUnitsShareContext(x, global, LevelOf(x, global, d.entries), c, Join(outPath, app.name), d.entries);
    }
  }

  /** `a` and then, unless `a` failed, `b`: a list, or the first error. */
  function Concat(a: Result<seq<OutputUnit>>, b: Result<seq<OutputUnit>>): Result<seq<OutputUnit>>
  {
    if a.Err? then a else if b.Err? then b else Ok(a.value + b.value)
  }

  /** The units of all applications, in configured order, or the first error. */
  function Applications(x: Externals, global: RuleSet, base: Context, outPath: string,
                        apps: seq<ApplicationInput>): Result<seq<OutputUnit>>
  {
    if apps == [] then Ok([])
    else Concat(AppUnits(x, global, base, outPath, apps[0]), Applications(x, global, base, outPath, apps[1..]))
  }

  /** `processApplications` as a specification. */
  function ProcessAll(x: Externals, global: RuleSet, envFile: string, outPath: string,
                      apps: seq<ApplicationInput>): Result<seq<OutputUnit>>
  {
    match GenContext(x, envFile)
    case Err(e) => Err(e)
    case Ok(base) => Applications(x, global, base, outPath, apps)
  }

  /**
    The list for `a + b` is the list for `a` followed by the list for `b`;
    an error in either is the error of the whole, never a partial list.
   */
  lemma {:induction false} ApplicationsAppend(x: Externals, global: RuleSet, base: Context, outPath: string,
                                              a: seq<ApplicationInput>, b: seq<ApplicationInput>)
    ensures Applications(x, global, base, outPath, a + b) ==
            Concat(Applications(x, global, base, outPath, a), Applications(x, global, base, outPath, b))
  {
    if a == [] {
      assert a + b == b;
      var w := Applications(x, global, base, outPath, b);
      if w.Ok? {
        assert [] + w.value == w.value;
      }
    } else {
      assert (a + b)[0] == a[0] && (a + b)[1..] == a[1..] + b;
      ApplicationsAppend(x, global, base, outPath, a[1..], b);
      var u := AppUnits(x, global, base, outPath, a[0]);
      var v := Applications(x, global, base, outPath, a[1..]);
      var w := Applications(x, global, base, outPath, b);
      assert Applications(x, global, base, outPath, a + b) == Concat(u, Concat(v, w));
      assert Applications(x, global, base, outPath, a) == Concat(u, v);
      if u.Ok? && v.Ok? && w.Ok? {
        ConcatAssoc(u.value, v.value, w.value);
      }
    }
  }

  /** One step of the run over `apps`: those before `i`, application `i`, the rest. */
  lemma ApplicationsStep(x: Externals, global: RuleSet, base: Context, outPath: string,
                         apps: seq<ApplicationInput>, i: nat)
    requires i < |apps|
    ensures Applications(x, global, base, outPath, apps[..i + 1]) ==
            Concat(Applications(x, global, base, outPath, apps[..i]), AppUnits(x, global, base, outPath, apps[i]))
    ensures Applications(x, global, base, outPath, apps) ==
            Concat(Applications(x, global, base, outPath, apps[..i + 1]),
                   Applications(x, global, base, outPath, apps[i + 1..]))
  {
    assert apps[..i + 1] == apps[..i] + [apps[i]];
    assert apps[..i + 1] + apps[i + 1..] == apps;
    ApplicationsAppend(x, global, base, outPath, apps[..i], [apps[i]]);
    ApplicationsAppend(x, global, base, outPath, apps[..i + 1], apps[i + 1..]);
    assert [apps[i]][1..] == [];
    var u := AppUnits(x, global, base, outPath, apps[i]);
    if u.Ok? {
      assert u.value + [] == u.value;
    }
  }

  /** The run of all applications fails exactly when one of them fails. */
  lemma {:induction false} ApplicationsFailIff(x: Externals, global: RuleSet, base: Context, outPath: string,
                                               apps: seq<ApplicationInput>)
    ensures Applications(x, global, base, outPath, apps).Err? <==>
            exists i :: 0 <= i < |apps| && AppUnits(x, global, base, outPath, apps[i]).Err?
  {
    if apps != [] {
      ApplicationsFailIff(x, global, base, outPath, apps[1..]);
      if AppUnits(x, global, base, outPath, apps[0]).Ok? {
        if exists i :: 0 <= i < |apps| && AppUnits(x, global, base, outPath, apps[i]).Err? {
          var i :| 0 <= i < |apps| && AppUnits(x, global, base, outPath, apps[i]).Err?;
          assert apps[1..][i - 1] == apps[i];
        }
        forall i | 0 <= i < |apps[1..]| ensures apps[1..][i] == apps[i + 1] { }
      }
    }
  }

  /**
    `processApplications`: the base context, then for each application in
    order a value copy of it with the application's values and a walk of
    its templates, all appending to one list. Any error is returned with no
    list at all.
   */
  method ProcessApplications(x: Externals, b: Bogie) returns (r: Result<seq<OutputUnit>>)
    requires b.rules.Some?
    ensures r == ProcessAll(x, b.rules.value, b.envFile, b.outPath, b.apps)
  {
    var c := GenContext(x, b.envFile);
    if c.Err? {
      return Err(c.error);
    }
    var base := c.value;
    var global := b.rules.value;
    var acc := new Outputs();
    var i := 0;
    while i < |b.apps|
      invariant 0 <= i <= |b.apps|
      invariant Applications(x, global, base, b.outPath, b.apps[..i]) == Ok(acc.units)
    {
      var app := b.apps[i];
      ApplicationsStep(x, global, base, b.outPath, b.apps, i);
      // a value copy of the base context, with this application's values
      var ac := SetValueContext(x, app.values, base);
      if ac.Err? {
        return Err(ac.error);
      }
      var releaseDir := Join(b.outPath, app.name);
      var conf := WalkConfig(app.muteWarning, x.readDir(app.templates), releaseDir, ac.value, global);
      ghost var before := acc.units;
      var err := ProcessApplication(x, conf, acc);
      if err.Some? {
        return Err(err.value);
      }
      assert AppUnits(x, global, base, b.outPath, app) == Ok(acc.units[|before|..]);
      i := i + 1;
    }
    assert b.apps[..i] == b.apps;
    return Ok(acc.units);
  }
}
