/**
 * Row authorization (jans-cedarling/cedarling_pg/src/authorization.rs): building the engine
 * request from a resource and a token bundle, and turning the engine's verdict into the final
 * decision according to the operation mode and the fail mode.
 *
 * The policy engine is not modelled: its global instance is an `Option<Engine>` input and an
 * engine is a function from a request to a verdict or an error text.
 */
module Authorization {
  import opened Wrappers
  import opened Json
  import opened Errors
  import opened Config
  import opened Token
  import opened Resource

  datatype Request = Request(
    tokens: map<string, string>,
    action: string,
    resource: EntityData,
    context: Value)

  type Engine = Request -> Result<bool, string>

  /** `get_cedarling_instance`: the engine, or a `System` error when it was never initialised. */
  function GetInstance(instance: Option<Engine>): (r: Result<Engine, CedarlingError>)
    ensures r.Ok? <==> instance.Some?
    ensures r.Err? ==> r.error.System?
  {
    match instance
    case Some(e) => Ok(e)
    case None => Err(System("Cedarling instance not initialized"))
  }

  /** The token map of the request: each present token under its type name. */
  function TokenMap(b: TokenBundle): (m: map<string, string>)
    ensures forall t :: TypeName(t) in m <==> TokenOf(b, t).Some?
    ensures forall t :: TypeName(t) in m ==> m[TypeName(t)] == TokenOf(b, t).value
    ensures m.Keys <= {TypeName(AccessToken), TypeName(IdToken), TypeName(UserinfoToken)}
  {
    var m1 := if b.accessToken.Some? then map["access_token" := b.accessToken.value] else map[];
    var m2 := if b.idToken.Some? then m1["id_token" := b.idToken.value] else m1;
    if b.userinfoToken.Some? then m2["userinfo_token" := b.userinfoToken.value] else m2
  }

  /** The request `authorize_row` sends: the bundle's tokens, the action, the resource, `{}`. */
  function BuildRequest(resource: CedarResource, b: TokenBundle, action: string): (req: Request)
    ensures req.action == action
    ensures req.context == EmptyObject
    ensures req.resource == ToEntityData(resource)
    ensures req.tokens == TokenMap(b)
  {
    Request(TokenMap(b), action, ToEntityData(resource), EmptyObject)
  }

  /**
   * The decision rule: an engine decision is enforced only in `Enforcement` mode and other
   * modes always allow; an engine error allows exactly when failing open.
   */
  function Decide(verdict: Result<bool, string>, mode: OperationMode, failMode: FailMode): (allow: bool)
    ensures verdict.Ok? ==> (allow <==> mode != Enforcement || verdict.value)
    ensures verdict.Err? ==> (allow <==> failMode == Open)
  {
    match verdict
    case Ok(decision) => mode != Enforcement || decision
    case Err(_) => failMode == Open
  }

  /**
   * `authorize_row`. The two settings are the raw reads of `cedarling.mode` and
   * `cedarling.fail_mode`; the mode is read only after a decision and the fail mode only
   * after an engine error, which for pure reads makes no difference.
   */
  function AuthorizeRow(
    resource: CedarResource, b: TokenBundle, action: string,
    instance: Option<Engine>, modeSetting: Option<string>, failSetting: Option<string>)
    : (r: Result<bool, CedarlingError>)
    ensures r.Err? <==> instance.None?
    ensures r.Err? ==> r == Err(System("Cedarling instance not initialized"))
    ensures r.Ok? ==> r.value == Decide(instance.value(BuildRequest(resource, b, action)),
                                        GetOperationMode(modeSetting), GetFailMode(failSetting))
  {
    var engine :- GetInstance(instance);
    var request := BuildRequest(resource, b, action);
    Ok(Decide(engine(request), GetOperationMode(modeSetting), GetFailMode(failSetting)))
  }

  /**
   * With neither setting made, row access is exactly the engine's decision, and an engine
   * error denies: the extension enforces and fails closed by default.
   */
  lemma DefaultsEnforceAndFailClosed(resource: CedarResource, b: TokenBundle, action: string, engine: Engine)
    ensures AuthorizeRow(resource, b, action, Some(engine), None, None)
            == Ok(engine(BuildRequest(resource, b, action)) == Ok(true))
  {
  }

  /** Outside `Enforcement` mode an answering engine never denies a row. */
  lemma NonEnforcingModesAllow(
    resource: CedarResource, b: TokenBundle, action: string,
    engine: Engine, modeSetting: Option<string>, failSetting: Option<string>)
    requires GetOperationMode(modeSetting) != Enforcement
    requires engine(BuildRequest(resource, b, action)).Ok?
    ensures AuthorizeRow(resource, b, action, Some(engine), modeSetting, failSetting) == Ok(true)
  {
  }

  /**
   * `authorize_manual`: the resource JSON is parsed first and the token JSON second, each
   * failure reported as `JsonParsing`; JSON decoding itself is not modelled, so the parse
   * results are inputs (the error text being the JSON library's).
   */
  function AuthorizeManual(
    resourceJson: Result<CedarResource, string>, tokenJson: Result<TokenBundle, string>,
    action: string, instance: Option<Engine>, modeSetting: Option<string>, failSetting: Option<string>)
    : (r: Result<bool, CedarlingError>)
    ensures resourceJson.Err? ==> r == Err(JsonParsing("Invalid resource JSON: " + resourceJson.error))
    ensures resourceJson.Ok? && tokenJson.Err? ==> r == Err(JsonParsing("Invalid token JSON: " + tokenJson.error))
    ensures r.Err? ==> r.error.JsonParsing? || r.error.System?
    ensures resourceJson.Ok? && tokenJson.Ok? ==>
              r == AuthorizeRow(resourceJson.value, tokenJson.value, action, instance, modeSetting, failSetting)
  {
    match resourceJson
    case Err(e) => Err(JsonParsing("Invalid resource JSON: " + e))
    case Ok(resource) =>
      (match tokenJson
       case Err(e) => Err(JsonParsing("Invalid token JSON: " + e))
       case Ok(b) => AuthorizeRow(resource, b, action, instance, modeSetting, failSetting))
  }
}
