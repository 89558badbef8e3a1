/**
 * The extension's error taxonomy (jans-cedarling/cedarling_pg/src/error.rs): thirteen error
 * variants, each with a free-text detail, and the three classifications derived from a
 * variant: whether it denies access, the level it is logged at, and its audit category.
 */
module Errors {
  import opened Wrappers

  datatype CedarlingError =
    | TokenValidation(msg: string)
    | ResourceConstruction(msg: string)
    | PolicyEvaluation(msg: string)
    | Configuration(msg: string)
    | System(msg: string)
    | Cache(msg: string)
    | JsonParsing(msg: string)
    | Database(msg: string)
    | AuthorizationDenied(msg: string)
    | PolicyLoading(msg: string)
    | SchemaValidation(msg: string)
    | Network(msg: string)
    | Timeout(msg: string)

  datatype LogLevel = Debug | Info | Warning | Error

  /** Two errors are of the same variant when they differ at most in their detail text. */
  predicate SameVariant(a: CedarlingError, b: CedarlingError) {
    a.(msg := "") == b.(msg := "")
  }

  /** The "recoverable" data-processing variants: the only ones that do not force a denial. */
  predicate IsRecoverable(e: CedarlingError) {
    e.ResourceConstruction? || e.JsonParsing? || e.Cache?
  }

  /** Whether the error results in access denial. */
  function ShouldDeny(e: CedarlingError): (deny: bool)
    ensures deny <==> !IsRecoverable(e)
  {
    match e
    case TokenValidation(_) => true
    case AuthorizationDenied(_) => true
    case PolicyEvaluation(_) => true
    case System(_) => true
    case Database(_) => true
    case Network(_) => true
    case Timeout(_) => true
    case PolicyLoading(_) => true
    case Configuration(_) => true
    case SchemaValidation(_) => true
    case ResourceConstruction(_) => false
    case JsonParsing(_) => false
    case Cache(_) => false
  }

  /** The level the error is logged at. */
  function LevelOf(e: CedarlingError): (level: LogLevel)
    ensures level == Debug <==> e.Cache?
    ensures level == Info <==> e.AuthorizationDenied?
    ensures level == Warning <==>
              e.System? || e.Network? || e.Timeout? || e.ResourceConstruction? || e.JsonParsing?
    ensures level == Error <==>
              e.TokenValidation? || e.PolicyEvaluation? || e.PolicyLoading? || e.SchemaValidation?
              || e.Database? || e.Configuration?
  {
    match e
    case TokenValidation(_) => Error
    case AuthorizationDenied(_) => Info
    case PolicyEvaluation(_) => Error
    case PolicyLoading(_) => Error
    case SchemaValidation(_) => Error
    case System(_) => Warning
    case Database(_) => Error
    case Network(_) => Warning
    case Timeout(_) => Warning
    case Configuration(_) => Error
    case ResourceConstruction(_) => Warning
    case JsonParsing(_) => Warning
    case Cache(_) => Debug
  }

  /** An error that does not deny access is never logged at `Error` level (nor at `Info`). */
  lemma RecoverableLogsQuietly(e: CedarlingError)
    requires !ShouldDeny(e)
    ensures LevelOf(e) == Warning || LevelOf(e) == Debug
  {
  }

  /** The category string used for metrics and audit: a non-empty lower-case snake_case name. */
  function Category(e: CedarlingError): (r: string)
    ensures |r| > 0
    ensures forall i :: 0 <= i < |r| ==> r[i] == '_' || 'a' <= r[i] <= 'z'
  {
    match e
    case TokenValidation(_) => "token_validation"
    case ResourceConstruction(_) => "resource_construction"
    case PolicyEvaluation(_) => "policy_evaluation"
    case Configuration(_) => "configuration"
    case System(_) => "system"
    case Cache(_) => "cache"
    case JsonParsing(_) => "json_parsing"
    case Database(_) => "database"
    case AuthorizationDenied(_) => "authorization_denied"
    case PolicyLoading(_) => "policy_loading"
    case SchemaValidation(_) => "schema_validation"
    case Network(_) => "network"
    case Timeout(_) => "timeout"
  }

  /** The inverse of `Category`: the variant a category string names, carrying detail `msg`. */
  function FromCategory(category: string, msg: string): Option<CedarlingError> {
    match category
    case "token_validation" => Some(TokenValidation(msg))
    case "resource_construction" => Some(ResourceConstruction(msg))
    case "policy_evaluation" => Some(PolicyEvaluation(msg))
    case "configuration" => Some(Configuration(msg))
    case "system" => Some(System(msg))
    case "cache" => Some(Cache(msg))
    case "json_parsing" => Some(JsonParsing(msg))
    case "database" => Some(Database(msg))
    case "authorization_denied" => Some(AuthorizationDenied(msg))
    case "policy_loading" => Some(PolicyLoading(msg))
    case "schema_validation" => Some(SchemaValidation(msg))
    case "network" => Some(Network(msg))
    case "timeout" => Some(Timeout(msg))
    case _ => None
  }

  /** The category of an error, together with its detail, identifies the error. */
  lemma CategoryRoundTrip(e: CedarlingError)
    ensures FromCategory(Category(e), e.msg) == Some(e)
  {
  }

  /** `Category` is injective on variants: equal categories exactly when the variants agree. */
  lemma CategoryInjective(a: CedarlingError, b: CedarlingError)
    ensures Category(a) == Category(b) <==> SameVariant(a, b)
  {
  }

  /** The fixed text each variant's message starts with, before ": " and the detail. */
  function DisplayName(e: CedarlingError): string {
    match e
    case TokenValidation(_) => "Token validation failed"
    case ResourceConstruction(_) => "Resource construction failed"
    case PolicyEvaluation(_) => "Policy evaluation failed"
    case Configuration(_) => "Configuration error"
    case System(_) => "System error"
    case Cache(_) => "Cache operation failed"
    case JsonParsing(_) => "JSON parsing failed"
    case Database(_) => "Database operation failed"
    case AuthorizationDenied(_) => "Authorization denied"
    case PolicyLoading(_) => "Policy loading failed"
    case SchemaValidation(_) => "Schema validation failed"
    case Network(_) => "Network operation failed"
    case Timeout(_) => "Timeout occurred"
  }

  /**
   * The human-readable message of an error (its `Display` text): a fixed text for the
   * variant, then ": ", then the detail.
   */
  function Display(e: CedarlingError): (r: string)
    ensures |e.msg| + 2 < |r|
    ensures r[|r| - |e.msg|..] == e.msg
    ensures r[|r| - |e.msg| - 2..|r| - |e.msg|] == ": "
  {
    DisplayName(e) + ": " + e.msg
  }

  /** No fixed text contains ':', so the first ':' of a message ends its fixed text. */
  lemma NameHasNoColon(e: CedarlingError)
    ensures ':' !in DisplayName(e)
  {
    // Each fixed text is checked on its own; the solver does not manage all of them at once.
    if e.TokenValidation? { assert ':' !in "Token validation failed"; }
    if e.ResourceConstruction? { assert ':' !in "Resource construction failed"; }
    if e.PolicyEvaluation? { assert ':' !in "Policy evaluation failed"; }
    if e.Configuration? { assert ':' !in "Configuration error"; }
    if e.System? { assert ':' !in "System error"; }
    if e.Cache? { assert ':' !in "Cache operation failed"; }
    if e.JsonParsing? { assert ':' !in "JSON parsing failed"; }
    if e.Database? { assert ':' !in "Database operation failed"; }
    if e.AuthorizationDenied? { assert ':' !in "Authorization denied"; }
    if e.PolicyLoading? { assert ':' !in "Policy loading failed"; }
    if e.SchemaValidation? { assert ':' !in "Schema validation failed"; }
    if e.Network? { assert ':' !in "Network operation failed"; }
    if e.Timeout? { assert ':' !in "Timeout occurred"; }
  }

  /** Distinct variants have distinct fixed texts. */
  lemma NameDeterminesVariant(a: CedarlingError, b: CedarlingError)
    requires DisplayName(a) == DisplayName(b)
    ensures SameVariant(a, b)
  {
  }

  /** Two equal messages have fixed texts of the same length: each ends at the first ':'. */
  lemma SameNameLength(a: CedarlingError, b: CedarlingError)
    requires Display(a) == Display(b)
    ensures |DisplayName(a)| == |DisplayName(b)|
  {
    var r, na, nb := Display(a), DisplayName(a), DisplayName(b);
    assert r == na + ": " + a.msg == nb + ": " + b.msg;
    if |na| < |nb| {
      assert nb[|na|] == r[|na|] == ':';
      NameHasNoColon(b);
      assert false;
    } else if |nb| < |na| {
      assert na[|nb|] == r[|nb|] == ':';
      NameHasNoColon(a);
      assert false;
    }
  }

  /** The message identifies the error: different errors never display alike. */
  lemma DisplayInjective(a: CedarlingError, b: CedarlingError)
    ensures Display(a) == Display(b) <==> a == b
  {
    if Display(a) == Display(b) {
      var r, na, nb := Display(a), DisplayName(a), DisplayName(b);
      SameNameLength(a, b);
      assert r == na + ": " + a.msg == nb + ": " + b.msg;
      assert na == r[..|na|] == nb;
      NameDeterminesVariant(a, b);
      assert a.msg == r[|na| + 2..] == b.msg;
    }
  }

  /** The name a log level is rendered with in an audit entry (its `Debug` formatting). */
  function LevelName(level: LogLevel): string {
    match level
    case Debug => "Debug"
    case Info => "Info"
    case Warning => "Warning"
    case Error => "Error"
  }

  function LevelFromName(name: string): Option<LogLevel> {
    match name
    case "Debug" => Some(Debug)
    case "Info" => Some(Info)
    case "Warning" => Some(Warning)
    case "Error" => Some(Error)
    case _ => None
  }

  /**
   * An audit-log entry. The timestamp and the error id come from the clock and a random
   * UUID generator, so the model takes them as inputs.
   */
  datatype AuditLogEntry = AuditLogEntry(
    timestamp: int,
    errorId: string,
    category: string,
    message: string,
    context: Option<string>,
    shouldDeny: bool,
    logLevel: string)

  /** The audit entry recorded for `e`; every classification in it can be read back. */
  function ToAuditLog(e: CedarlingError, context: Option<string>, timestamp: int, errorId: string)
    : (entry: AuditLogEntry)
    ensures FromCategory(entry.category, "") == Some(e.(msg := ""))
    ensures entry.shouldDeny <==> !IsRecoverable(e)
    ensures LevelFromName(entry.logLevel) == Some(LevelOf(e))
    ensures entry.context == context
    ensures entry.message == Display(e)
    ensures entry.timestamp == timestamp && entry.errorId == errorId
  {
    CategoryRoundTrip(e.(msg := ""));
    assert Category(e) == Category(e.(msg := ""));
    var level := LevelOf(e);
    assert LevelFromName(LevelName(level)) == Some(level);
    AuditLogEntry(timestamp, errorId, Category(e), Display(e), context, ShouldDeny(e), LevelName(level))
  }

  /** `From<serde_json::Error>`: a JSON error becomes `JsonParsing` with the library's text. */
  function FromJsonError(detail: string): (e: CedarlingError)
    ensures e.JsonParsing? && e.msg == detail
    ensures !ShouldDeny(e) && LevelOf(e) == Warning
  {
    JsonParsing(detail)
  }

  const SpiPrefix: string := "SPI error: "

  /** `From<pgrx::spi::Error>`: an SPI error becomes `System`, its text prefixed with "SPI error: ". */
  function FromSpiError(detail: string): (e: CedarlingError)
    ensures e.System?
    ensures |e.msg| == |SpiPrefix| + |detail|
    ensures e.msg[..|SpiPrefix|] == SpiPrefix && e.msg[|SpiPrefix|..] == detail
    ensures ShouldDeny(e) && LevelOf(e) == Warning
  {
    System(SpiPrefix + detail)
  }
}
