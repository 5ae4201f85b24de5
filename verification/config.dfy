/**
  The run configuration (`Bogie`). Its settings are fixed once the
  configuration is loaded; only the global ignore rule set is filled in
  later, by `InitRules`.
 */
module Config {
  import opened Types

  class Bogie {
    const lDelim: string
    const rDelim: string
    const envFile: string
    const outFile: string
    const outPath: string
    const outFormat: string
    const apps: seq<ApplicationInput>
    // the global ignore rule set; `None` while it is nil
    var rules: Option<RuleSet>

    constructor (lDelim: string, rDelim: string, envFile: string, outFile: string,
                 outPath: string, outFormat: string, apps: seq<ApplicationInput>,
                 rules: Option<RuleSet>)
      ensures this.lDelim == lDelim && this.rDelim == rDelim
      ensures this.envFile == envFile && this.outFile == outFile
      ensures this.outPath == outPath && this.outFormat == outFormat
      ensures this.apps == apps && this.rules == rules
    {
      this.lDelim, this.rDelim := lDelim, rDelim;
      this.envFile, this.outFile := envFile, outFile;
      this.outPath, this.outFormat := outPath, outFormat;
      this.apps, this.rules := apps, rules;
    }

    function Delimiters(): (d: Delims)
      ensures d.left == lDelim && d.right == rDelim
    {
      Delims(lDelim, rDelim)
    }

    /**
      Installs the default rule set `init` (what `ignore.Init()` builds)
      when no rule set is present, and otherwise leaves the present one.
      Afterwards a rule set is always present, so a second call changes
      nothing: the operation is idempotent.
     */
    method InitRules(init: RuleSet)
      modifies this`rules
      ensures rules.Some?
      ensures old(rules).Some? ==> rules == old(rules)
      ensures old(rules).None? ==> rules == Some(init)
    {
      if rules.None? {
        rules := Some(init);
      }
    }
  }
}
