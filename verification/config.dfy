/**
 * Extension settings (jans-cedarling/cedarling_pg/src/config.rs): the operation mode and the
 * fail mode, how their names are parsed, and how an absent or unreadable setting defaults.
 * A setting is read with `current_setting(name, true)`; the model receives that read's result
 * as an `Option<string>` (None for SQL NULL or a failed query).
 */
module Config {
  import opened Wrappers
  import opened Strings
  import opened Errors

  datatype OperationMode = Enforcement | Instrumentation | Shadow

  datatype FailMode = Closed | Open

  datatype ExtensionConfig = ExtensionConfig(mode: OperationMode, failMode: FailMode)

  /** The lower-case name each operation mode is spelled with. */
  function ModeName(m: OperationMode): string {
    match m
    case Enforcement => "enforcement"
    case Instrumentation => "instrumentation"
    case Shadow => "shadow"
  }

  function FailModeName(f: FailMode): string {
    match f
    case Closed => "closed"
    case Open => "open"
  }

  /** `OperationMode::from_str`: a case-insensitive match against the three mode names. */
  function ParseOperationMode(s: string): (r: Result<OperationMode, CedarlingError>)
    ensures r.Ok? <==> Lower(s) in {"enforcement", "instrumentation", "shadow"}
    ensures r.Ok? ==> ModeName(r.value) == Lower(s)
    ensures r.Err? ==> r.error.Configuration?
  {
    match Lower(s)
    case "enforcement" => Ok(Enforcement)
    case "instrumentation" => Ok(Instrumentation)
    case "shadow" => Ok(Shadow)
    case _ => Err(Configuration("Invalid operation mode: " + s
                                + ". Must be 'enforcement', 'instrumentation', or 'shadow'"))
  }

  /** `FailMode::from_str`: a case-insensitive match against "closed" and "open". */
  function ParseFailMode(s: string): (r: Result<FailMode, CedarlingError>)
    ensures r.Ok? <==> Lower(s) in {"closed", "open"}
    ensures r.Ok? ==> FailModeName(r.value) == Lower(s)
    ensures r.Err? ==> r.error.Configuration?
  {
    match Lower(s)
    case "closed" => Ok(Closed)
    case "open" => Ok(Open)
    case _ => Err(Configuration("Invalid fail mode: " + s + ". Must be 'closed' or 'open'"))
  }

  /** Every mode's own name parses back to it, in any letter case. */
  lemma ModeNameRoundTrip(m: OperationMode)
    ensures ParseOperationMode(ModeName(m)) == Ok(m)
    ensures ParseOperationMode(Upper(ModeName(m))) == Ok(m)
  {
    ModeNameIsLower(m);
    ParseIgnoresCase(ModeName(m));
  }

  lemma ModeNameIsLower(m: OperationMode)
    ensures Lower(ModeName(m)) == ModeName(m)
  {
    match m
    case Enforcement => LowerOfLower("enforcement");
    case Instrumentation => LowerOfLower("instrumentation");
    case Shadow => LowerOfLower("shadow");
  }

  lemma FailModeNameRoundTrip(f: FailMode)
    ensures ParseFailMode(FailModeName(f)) == Ok(f)
    ensures ParseFailMode(Upper(FailModeName(f))) == Ok(f)
  {
    LowerOfLower(FailModeName(f));
    ParseIgnoresCase(FailModeName(f));
  }

  /** Parsing ignores letter case: `s` and its upper-cased form parse to the same mode. */
  lemma ParseIgnoresCase(s: string)
    ensures ParseOperationMode(Upper(s)).Ok? == ParseOperationMode(s).Ok?
    ensures ParseOperationMode(s).Ok? ==> ParseOperationMode(Upper(s)) == ParseOperationMode(s)
    ensures ParseFailMode(Upper(s)).Ok? == ParseFailMode(s).Ok?
    ensures ParseFailMode(s).Ok? ==> ParseFailMode(Upper(s)) == ParseFailMode(s)
  {
    LowerOfUpper(s);
  }

  /** `ExtensionConfig::default`: enforcement, failing closed. */
  function DefaultConfig(): (c: ExtensionConfig)
    ensures c.mode == Enforcement && c.failMode == Closed
  {
    ExtensionConfig(Enforcement, Closed)
  }

  /**
   * `initialize`: on an empty write-once cell, yields the default configuration to be stored
   * there; on a cell already set, fails with a `Configuration` error.
   */
  function Initialize(cell: Option<ExtensionConfig>): (r: Result<ExtensionConfig, CedarlingError>)
    ensures cell.None? ==> r == Ok(DefaultConfig())
    ensures cell.Some? ==> r.Err? && r.error.Configuration?
  {
    if cell.None? then Ok(DefaultConfig())
    else Err(Configuration("Failed to initialize configuration"))
  }

  /** `get_config_value`: the setting's text, where an empty value counts as absent. */
  function ConfigValue(raw: Option<string>): (v: Option<string>)
    ensures v.Some? <==> raw.Some? && raw.value != ""
    ensures v.Some? ==> v.value == raw.value
  {
    match raw
    case Some(s) => if s != "" then Some(s) else None
    case None => None
  }

  /** `get_fail_mode`: the configured fail mode, `Closed` when absent, empty or unparsable. */
  function GetFailMode(raw: Option<string>): (f: FailMode)
    ensures ConfigValue(raw).Some? && ParseFailMode(ConfigValue(raw).value).Ok? ==>
              f == ParseFailMode(ConfigValue(raw).value).value
    ensures f == Open ==> ConfigValue(raw).Some? && Lower(ConfigValue(raw).value) == "open"
  {
    match ConfigValue(raw)
    case Some(s) => ParseFailMode(s).GetOr(Closed)
    case None => Closed
  }

  /** `get_operation_mode`: the configured mode, `Enforcement` when absent, empty or unparsable. */
  function GetOperationMode(raw: Option<string>): (m: OperationMode)
    ensures ConfigValue(raw).Some? && ParseOperationMode(ConfigValue(raw).value).Ok? ==>
              m == ParseOperationMode(ConfigValue(raw).value).value
    ensures m != Enforcement ==>
              ConfigValue(raw).Some? && Lower(ConfigValue(raw).value) == ModeName(m)
  {
    match ConfigValue(raw)
    case Some(s) => ParseOperationMode(s).GetOr(Enforcement)
    case None => Enforcement
  }

  /** Absent, empty and unparsable settings all give the default configuration. */
  lemma DefaultsWhenUnset(raw: Option<string>)
    requires raw.None? || raw == Some("") || ParseFailMode(raw.value).Err?
    ensures GetFailMode(raw) == DefaultConfig().failMode
  {
  }

  lemma ModeDefaultsWhenUnset(raw: Option<string>)
    requires raw.None? || raw == Some("") || ParseOperationMode(raw.value).Err?
    ensures GetOperationMode(raw) == DefaultConfig().mode
  {
  }
}
