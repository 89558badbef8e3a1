# Row authorization for PostgreSQL and passkey-metrics configuration, in Dafny

This project models two small pieces of the Janssen code base as pure Dafny functions and proves properties about them.

1. **The Cedarling PostgreSQL extension** (`jans-cedarling/cedarling_pg`) decides whether a database row may be read. It has four parts:
   - **Tokens.** It validates a bundle of JWTs (access, id, userinfo):
     - the three-part compact shape of section 7.1 of RFC 7515;
     - the base64url fix-up of section 5 of RFC 4648;
     - an algorithm allow-list over the names of section 3.1 of RFC 7518;
     - the registered claims `exp`, `nbf`, `iat`, `iss` and `sub` of section 4.1 of RFC 7519;
     - consistency between the tokens.
   - **Claim merge.** It merges the tokens' claims into a standard map and a custom map whose keys carry a per-token prefix.
   - **Resources.** It turns a table name into an entity type and picks a row id.
   - **Decision.** It asks the policy engine, then turns the answer into allow/deny. The operation mode (`enforcement`, `instrumentation`, `shadow`) and the fail mode (`closed`, `open`) decide how. Both come from the database settings.

   Errors come from a 13-variant taxonomy. Each variant has a deny flag, a log level and an audit category.
2. **FIDO2 passkey metrics** covers three Java classes:
   - the configuration object `AppConfiguration`, whose nine getters replace a `null` field by its default;
   - the config-API resource that reads and writes the eight metrics settings as their own document;
   - the server's `MetricService`. It checks the metrics gate and describes each passkey event before handing it to an executor.

Everything is modelled as total functions over immutable data:
- The current time is a parameter (`now`).
- The JWT library's decoding is a function parameter `decode`.
- The policy engine is an optional function from request to verdict.
- A database setting is the `Option<string>` its read returned.
- The configuration store is one `AppConfiguration` value.
- A Java getter that writes while it reads returns the value together with the updated object.

Modules, one per source component:

| module | file | models |
|---|---|---|
| `Wrappers` | wrappers.dfy | `Option` / `Result` with early return |
| `Strings` | strings.dfy | ASCII case mapping, Rust's `split`, number rendering |
| `Json` | json.dfy | serde_json values, `as_i64`, `as_str` |
| `Errors` | errors.dfy | `error.rs` |
| `Config` | config.dfy | `config.rs` |
| `Jws` | jws.dfy | compact-form shape, padding fix-up, algorithm allow-list (`token.rs`) |
| `Token` | token.dfy | bundle validation, claim checks, consistency, claim merge (`token.rs`) |
| `Resource` | resource.dfy | `resource.rs` |
| `Authorization` | authorization.dfy | `authorization.rs` |
| `AppConfig` | app_configuration.dfy | `AppConfiguration.java` |
| `Fido2ConfigResource` | fido2_config_resource.dfy | `Fido2ConfigResource.java` |
| `MetricService` | metric_service.dfy | `MetricService.java` |

Two points about the FIDO2 metrics code that the model follows as written:
- The configuration has batch-size and retention-day settings, but the code neither batches, queues nor reaps. Those settings are only stored and echoed back, and each event is handed to a single-thread executor as it happens.
- `isPasskeyMetricsEnabled` reads as "non-null and true". However, it calls the defaulting getter, which never returns `null`. So a `null` setting opens the gate, and only an explicit `false` closes it (`MetricService.IsPasskeyMetricsEnabled`).

## Model

| member | source | states |
|---|---|---|
| Errors.ShouldDeny | jans-cedarling/cedarling_pg/src/error.rs:52-75 | an error denies access exactly when it is not one of the recoverable variants `ResourceConstruction`, `JsonParsing`, `Cache` |
| Errors.LevelOf | jans-cedarling/cedarling_pg/src/error.rs:78-101 | `Cache` logs at Debug, `AuthorizationDenied` at Info; `System`, `Network`, `Timeout`, `ResourceConstruction` and `JsonParsing` at Warning; every other variant at Error, each as an if-and-only-if |
| Errors.RecoverableLogsQuietly | jans-cedarling/cedarling_pg/src/error.rs:52-101 | a non-denying error is logged at Warning or Debug, never at Error or Info |
| Errors.CategoryRoundTrip | jans-cedarling/cedarling_pg/src/error.rs:104-120 | the category string and the detail text together give back the error |
| Errors.CategoryInjective | jans-cedarling/cedarling_pg/src/error.rs:104-120 | two errors have the same category exactly when they are the same variant |
| Errors.Category | jans-cedarling/cedarling_pg/src/error.rs:104-120 | every category is a non-empty lower-case snake_case name |
| Errors.Display | jans-cedarling/cedarling_pg/src/error.rs:9-47 | every message is a fixed text for the variant, then ": ", then the error's detail |
| Errors.DisplayInjective | jans-cedarling/cedarling_pg/src/error.rs:9-47 | two errors display alike exactly when they are equal: the fixed texts hold no ':' and differ between variants |
| Errors.ToAuditLog | jans-cedarling/cedarling_pg/src/error.rs:123-133 | the audit entry's category reads back to the error's variant; its deny flag agrees with the error; its level name reads back to the error's level; context, message, timestamp and id are carried over |
| Errors.FromJsonError | jans-cedarling/cedarling_pg/src/error.rs:196-200 | a JSON error becomes `JsonParsing` with the library's text; it does not deny and logs at Warning |
| Errors.FromSpiError | jans-cedarling/cedarling_pg/src/error.rs:202-206 | an SPI error becomes `System` whose text is "SPI error: " followed by the library's text; it denies and logs at Warning |
| Config.ParseOperationMode | jans-cedarling/cedarling_pg/src/config.rs:15-25 | parsing succeeds exactly when the lower-cased text is one of the three mode names, and the mode's name is that text; otherwise the error is `Configuration` |
| Config.ParseFailMode | jans-cedarling/cedarling_pg/src/config.rs:37-46 | parsing succeeds exactly when the lower-cased text is "closed" or "open", and names the parsed mode; otherwise the error is `Configuration` |
| Config.ModeNameRoundTrip | jans-cedarling/cedarling_pg/src/config.rs:15-25 | each mode's name parses back to that mode, also when written in upper case |
| Config.FailModeNameRoundTrip | jans-cedarling/cedarling_pg/src/config.rs:37-46 | each fail mode's name parses back to it, also when written in upper case |
| Config.ParseIgnoresCase | jans-cedarling/cedarling_pg/src/config.rs:15-46 | a text and its upper-cased form parse alike, for both kinds of mode |
| Config.DefaultConfig | jans-cedarling/cedarling_pg/src/config.rs:55-62 | the default configuration is enforcement mode, failing closed |
| Config.Initialize | jans-cedarling/cedarling_pg/src/config.rs:55-75 | the first initialisation stores enforcement and fail-closed; a second one fails with `Configuration` |
| Config.ConfigValue | jans-cedarling/cedarling_pg/src/config.rs:95-100 | a setting is present exactly when it was read and is non-empty, and then it is the text read |
| Config.GetFailMode | jans-cedarling/cedarling_pg/src/config.rs:81-86 | a parsable setting decides the fail mode; `Open` is only ever the result of a setting reading "open" in some letter case |
| Config.GetOperationMode | jans-cedarling/cedarling_pg/src/config.rs:88-93 | a parsable setting decides the mode; a non-enforcing mode is only ever the result of a setting naming it |
| Config.DefaultsWhenUnset | jans-cedarling/cedarling_pg/src/config.rs:55-86 | an absent, empty or unparsable fail-mode setting gives the default configuration's fail mode, `Closed` |
| Config.ModeDefaultsWhenUnset | jans-cedarling/cedarling_pg/src/config.rs:55-93 | an absent, empty or unparsable mode setting gives the default configuration's mode, `Enforcement` |
| Jws.PartCountIsDots | jans-cedarling/cedarling_pg/src/token.rs:108-109 | `split('.')` yields three parts exactly when the token contains two dots |
| Jws.PadJwtPart | jans-cedarling/cedarling_pg/src/token.rs:158-166 | the result's length is the next multiple of four, and fewer than four characters are added; every original character is kept with '-' and '_' replaced by '+' and '/'; the added characters are all '='; no '-' or '_' remains |
| Jws.AlgorithmNameRoundTrip | jans-cedarling/cedarling_pg/src/token.rs:202-204 | every algorithm's `alg` name reads back as that algorithm |
| Jws.ClassifyAlgorithm | jans-cedarling/cedarling_pg/src/token.rs:207-229 | an algorithm is accepted exactly when it is RS256/384/512, ES256/384 or HS256/384/512; it is classed symmetric exactly for the HS family |
| Jws.AllowedNames | jans-cedarling/cedarling_pg/src/token.rs:202-229 | an `alg` header name passes exactly when it is one of the eight allowed names |
| Token.NewBundle | jans-cedarling/cedarling_pg/src/token.rs:25-31 | a new bundle has no token of any type |
| Token.ValidateJwtFormat | jans-cedarling/cedarling_pg/src/token.rs:106-122 | a token's format passes exactly when it splits into three parts and its header decodes; failures are `TokenValidation` |
| Token.ValidateStandardClaims | jans-cedarling/cedarling_pg/src/token.rs:252-342 | the claims pass exactly when `StandardClaimsAcceptable` holds, claim by claim as in RFC 7519 section 4.1 (details under that predicate); every failure is `TokenValidation`; the over-a-day warning is raised exactly for an integer `iat` more than 86400 s old; the missing-`exp` warning is raised exactly when `exp` is absent |
| Token.ValidateJwt | jans-cedarling/cedarling_pg/src/token.rs:197-249 | a token passes exactly when its shape, header, algorithm, claim extraction and registered claims all pass; an error that is not `TokenValidation` is the extraction error itself; a token not of three parts always fails with `TokenValidation` |
| Token.ClaimsOf | jans-cedarling/cedarling_pg/src/token.rs:350-359 | extraction fails exactly when the token is present and its claims do not extract, and then with the library's error; a successful extraction yields the present token's claims, or none for an absent token |
| Token.CheckConsistency | jans-cedarling/cedarling_pg/src/token.rs:361-411 | the tokens are consistent exactly when access `client_id` = id `aud`, id `sub` = userinfo `sub` and id `aud` = userinfo `aud`, wherever both sides are strings; every failure is `TokenValidation` |
| Token.ValidateTokenConsistency | jans-cedarling/cedarling_pg/src/token.rs:345-414 | passes exactly when every present token's claims extract and the extracted claims are consistent; the first token, in the order access, id, userinfo, whose claims do not extract decides the error, and otherwise every failure is `TokenValidation` |
| Token.IssuerNeverFails | jans-cedarling/cedarling_pg/src/token.rs:375-383 | changing the access or id token's issuer never changes whether the consistency check passes |
| Token.Validate | jans-cedarling/cedarling_pg/src/token.rs:40-46 | a bundle without any token is refused with `TokenValidation("At least one token must be provided")` |
| Token.ValidateAcceptsExactly | jans-cedarling/cedarling_pg/src/token.rs:40-63 | bundle validation succeeds exactly when the bundle has a token, every present token is acceptable, and the tokens are consistent |
| Token.PrefixedKeyInjective | jans-cedarling/cedarling_pg/src/token.rs:181 | two prefixed custom keys are equal exactly when both the token type and the claim name are |
| Token.MergeClaims | jans-cedarling/cedarling_pg/src/token.rs:174-194 | registered claims go unprefixed into the standard map and overwrite it; the standard map gains exactly those keys; every other claim `k` goes to the custom map as `<type>_k`; the custom map gains nothing else; keys owned by other tokens are untouched |
| Token.OwnedByOnlyOwner | jans-cedarling/cedarling_pg/src/token.rs:181 | a token's prefixed key carries the prefix of that token type and of no other |
| Token.ExtractClaims | jans-cedarling/cedarling_pg/src/token.rs:66-102 | extraction succeeds exactly when every present token's claims extract |
| Token.ExtractStandardLastWins | jans-cedarling/cedarling_pg/src/token.rs:66-102 | the standard map holds only registered claims; each is the value of the last token carrying it, in the order access, id, userinfo |
| Token.ExtractCustomKeepsAll | jans-cedarling/cedarling_pg/src/token.rs:66-102 | every custom claim of every present token is kept under its own prefixed key, so tokens never overwrite each other's custom claims; the custom map holds nothing else |
| Resource.New | jans-cedarling/cedarling_pg/src/resource.rs:17-23 | a new resource has the given type and id and no attributes |
| Resource.WithAttributes | jans-cedarling/cedarling_pg/src/resource.rs:25-28 | the attributes are replaced and the type and id are kept |
| Resource.ToEntityData | jans-cedarling/cedarling_pg/src/resource.rs:31-39 | type, id and attributes are carried over unchanged |
| Resource.BuiltResourceReachesEngine | jans-cedarling/cedarling_pg/src/resource.rs:17-39 | a resource built by `new` then `with_attributes` reaches the engine with exactly that type, id and attributes |
| Resource.TableNameToEntityType | jans-cedarling/cedarling_pg/src/resource.rs:130-143 | the split-capitalise-concatenate conversion equals a character-wise reference definition (`Pascal`): '_' is dropped and each character at the start or after a '_' is upper-cased; so the result never contains '_' |
| Resource.SplitAgreesWithPascal | jans-cedarling/cedarling_pg/src/resource.rs:133-142 | the piece-wise conversion of the split pieces equals the character-wise conversion, at and after a word start |
| Resource.PascalHasNoUnderscore | jans-cedarling/cedarling_pg/src/resource.rs:130-143 | an entity type never contains '_' |
| Resource.EmptyPiecesVanish | jans-cedarling/cedarling_pg/src/resource.rs:137-138 | empty pieces, from a doubled, leading or trailing '_', contribute nothing |
| Resource.EntityTypeIdempotent | jans-cedarling/cedarling_pg/src/resource.rs:130-143 | converting an entity type again leaves it unchanged |
| Resource.EntityTypeExampleUsers | jans-cedarling/cedarling_pg/src/resource.rs:151 | "users" becomes "Users" |
| Resource.TwoWords | jans-cedarling/cedarling_pg/src/resource.rs:130-143 | two '_'-joined words without '_' become the two words capitalised and run together |
| Resource.EntityTypeExampleUserProfiles | jans-cedarling/cedarling_pg/src/resource.rs:152 | "user_profiles" becomes "UserProfiles" |
| Resource.GeneratePrimaryKeyId | jans-cedarling/cedarling_pg/src/resource.rs:80-105 | the id is the text of the first of "id", "uuid", "pk", "primary_key" that is a string or a number; other value kinds are skipped; without one, the id is "row_" followed by the row hash |
| Resource.DatumToJson | jans-cedarling/cedarling_pg/src/resource.rs:115-127 | conversion never fails; the result is JSON null exactly for SQL NULL, and a string otherwise |
| Authorization.GetInstance | jans-cedarling/cedarling_pg/src/authorization.rs:24-28 | the engine is returned exactly when it exists; otherwise the error is `System` |
| Authorization.TokenMap | jans-cedarling/cedarling_pg/src/authorization.rs:86-95 | the token map has a key exactly for each present token, holding that token, and no other key |
| Authorization.BuildRequest | jans-cedarling/cedarling_pg/src/authorization.rs:97-102 | the request carries the action unchanged, an empty JSON object as context, the resource as entity data and the token map |
| Authorization.Decide | jans-cedarling/cedarling_pg/src/authorization.rs:105-142 | with an engine decision: allow exactly when not enforcing or the decision allows; on an engine error: allow exactly when failing open |
| Authorization.AuthorizeRow | jans-cedarling/cedarling_pg/src/authorization.rs:77-145 | the only error is the missing-instance `System` error; otherwise the result is the decision rule applied to the engine's verdict on the built request and the two settings |
| Authorization.DefaultsEnforceAndFailClosed | jans-cedarling/cedarling_pg/src/authorization.rs:105-142 | with neither setting made, a row is allowed exactly when the engine answers allow; an engine error denies |
| Authorization.NonEnforcingModesAllow | jans-cedarling/cedarling_pg/src/authorization.rs:113-125 | in instrumentation or shadow mode an answering engine never causes a denial |
| Authorization.AuthorizeManual | jans-cedarling/cedarling_pg/src/authorization.rs:148-160 | invalid resource JSON fails with `JsonParsing("Invalid resource JSON: …")` before the tokens are examined; then invalid token JSON fails with `JsonParsing("Invalid token JSON: …")`; otherwise it is row authorization |
| AppConfig.NewAppConfiguration | jans-fido2/model/src/main/java/io/jans/fido2/model/conf/AppConfiguration.java:35-107 | a fresh configuration has chunk size 100 and metrics enabled; retention 90, async on, batch 100; registration, authentication, device-info and error-categorisation on; session-id persistence and error reasons off |
| AppConfig.GetSessionIdPersistInCache | jans-fido2/model/src/main/java/io/jans/fido2/model/conf/AppConfiguration.java:222-225 | a set value is returned and nothing changes; a `null` is replaced by `false`, which is returned; no other field changes |
| AppConfig.GetPasskeyMetricsEnabled | jans-fido2/model/src/main/java/io/jans/fido2/model/conf/AppConfiguration.java:241-244 | a set value is returned unchanged; `null` becomes and returns `true`; the field is set afterwards; no other field changes |
| AppConfig.GetPasskeyMetricsRetentionDays | jans-fido2/model/src/main/java/io/jans/fido2/model/conf/AppConfiguration.java:250-253 | as above, with default 90 |
| AppConfig.GetPasskeyMetricsAsyncStorage | jans-fido2/model/src/main/java/io/jans/fido2/model/conf/AppConfiguration.java:259-262 | as above, with default `true` |
| AppConfig.GetPasskeyMetricsBatchSize | jans-fido2/model/src/main/java/io/jans/fido2/model/conf/AppConfiguration.java:268-271 | as above, with default 100 |
| AppConfig.GetRegistrationMetricsEnabled | jans-fido2/model/src/main/java/io/jans/fido2/model/conf/AppConfiguration.java:277-280 | as above, with default `true` |
| AppConfig.GetAuthenticationMetricsEnabled | jans-fido2/model/src/main/java/io/jans/fido2/model/conf/AppConfiguration.java:286-289 | as above, with default `true` |
| AppConfig.GetDeviceInfoCollection | jans-fido2/model/src/main/java/io/jans/fido2/model/conf/AppConfiguration.java:295-298 | as above, with default `true` |
| AppConfig.GetErrorCategorization | jans-fido2/model/src/main/java/io/jans/fido2/model/conf/AppConfiguration.java:304-307 | as above, with default `true` |
| AppConfig.ReadMetrics | jans-fido2/model/src/main/java/io/jans/fido2/model/conf/AppConfiguration.java:241-307 | reading the eight settings in turn gives what each getter gives on the original object; afterwards all eight are set and nothing else has changed |
| AppConfig.SetThenGet | jans-fido2/model/src/main/java/io/jans/fido2/model/conf/AppConfiguration.java:222-311 | after setting a non-null value, the getter returns that value |
| AppConfig.NullReadsDefault | jans-fido2/model/src/main/java/io/jans/fido2/model/conf/AppConfiguration.java:222-311 | after setting `null`, each defaulting getter returns its default: true, 90, true, 100, true, true, true, true, and false for session-id persistence |
| AppConfig.GettersStabilize | jans-fido2/model/src/main/java/io/jans/fido2/model/conf/AppConfiguration.java:222-307 | a second call of a defaulting getter returns the same value and changes nothing |
| AppConfig.FreshConfigReadsDefaults | jans-fido2/model/src/main/java/io/jans/fido2/model/conf/AppConfiguration.java:76-105 | on a fresh configuration the getters report the documented defaults and store nothing |
| Fido2ConfigResource.GetFido2Configuration | jans-config-api/plugins/fido2-plugin/src/main/java/io/jans/configapi/plugin/fido2/rest/Fido2ConfigResource.java:62-66 | the response is the stored configuration, and the store is unchanged |
| Fido2ConfigResource.GetFido2MetricsConfiguration | jans-config-api/plugins/fido2-plugin/src/main/java/io/jans/configapi/plugin/fido2/rest/Fido2ConfigResource.java:95-110 | the response holds the eight stored metrics settings with each `null` replaced by its default, and the store is unchanged |
| Fido2ConfigResource.UpdateFido2MetricsConfiguration | jans-config-api/plugins/fido2-plugin/src/main/java/io/jans/configapi/plugin/fido2/rest/Fido2ConfigResource.java:123-143 | a `null` body is rejected as "fido2MetricsConfiguration" with the store untouched; otherwise the store's eight metrics fields become the body's, `null`s included, and nothing else changes; the response is a metrics GET of the new store |
| Fido2ConfigResource.MetricsUpdateKeepsOtherFields | jans-config-api/plugins/fido2-plugin/src/main/java/io/jans/configapi/plugin/fido2/rest/Fido2ConfigResource.java:129-139 | issuer, endpoint, chunk size, session-id persistence, error reasons and the nested FIDO2 configuration survive a metrics PUT |
| Fido2ConfigResource.MetricsUpdateResponse | jans-config-api/plugins/fido2-plugin/src/main/java/io/jans/configapi/plugin/fido2/rest/Fido2ConfigResource.java:130-142 | for each of the eight fields, the value is stored exactly as sent, `null` included; it is answered as sent, except that a `null` is answered with the field's default (true, or 90 days, or batch size 100) |
| Fido2ConfigResource.CompleteMetricsRoundTrip | jans-config-api/plugins/fido2-plugin/src/main/java/io/jans/configapi/plugin/fido2/rest/Fido2ConfigResource.java:123-143 | a body with all eight settings given is answered with itself |
| Fido2ConfigResource.MetricsUpdateLastWins | jans-config-api/plugins/fido2-plugin/src/main/java/io/jans/configapi/plugin/fido2/rest/Fido2ConfigResource.java:127-139 | two metrics PUTs in a row end as the second one alone would |
| Fido2ConfigResource.UpdateFido2Configuration | jans-config-api/plugins/fido2-plugin/src/main/java/io/jans/configapi/plugin/fido2/rest/Fido2ConfigResource.java:78-83 | a `null` body is rejected as "fido2Configuration" with the store untouched; otherwise the body is stored and returned as stored |
| MetricService.EventTypeNameRoundTrip | jans-fido2/server/src/main/java/io/jans/fido2/service/shared/MetricService.java:102-317 | each event-type string reads back to its kind, so the string identifies the method that recorded it |
| MetricService.Describe | jans-fido2/server/src/main/java/io/jans/fido2/service/shared/MetricService.java:102-317 | the event type names the method; the user id is passed through; success is false exactly for registration/authentication failures, nudge declined and fallback; the caller's duration is used by successes and failures, and 0 otherwise; the context keys are exactly those of the kind's table; "duration" in the context equals the recorded duration; "deviceInfo", "startTime", "errorReason", "nudgeContext", "fallbackMethod" and "reason" hold the caller's corresponding arguments |
| MetricService.AttemptKeepsStartTime | jans-fido2/server/src/main/java/io/jans/fido2/service/shared/MetricService.java:102-187 | an attempt records its start time in the context and duration 0 |
| MetricService.IsPasskeyMetricsEnabled | jans-fido2/server/src/main/java/io/jans/fido2/service/shared/MetricService.java:324-327 | the gate is open exactly when the setting is not an explicit `false`; reading it leaves the configuration as the getter does |
| MetricService.RecordPasskey | jans-fido2/server/src/main/java/io/jans/fido2/service/shared/MetricService.java:102-327 | a task is handed off exactly when the gate is open, and it is the method's description of the event (`Describe`); the configuration afterwards is the one the metrics-enabled getter leaves, so that field is set and nothing outside the metrics settings has changed |
| MetricService.DisabledRecordsNothing | jans-fido2/server/src/main/java/io/jans/fido2/service/shared/MetricService.java:103-105 | with metrics switched off, a recording call hands off nothing and changes nothing |
| MetricService.CreateMetricEntry | jans-fido2/server/src/main/java/io/jans/fido2/service/shared/MetricService.java:332-341 | the entry has the given creation time, application type FIDO2 and the given node identifier |
| MetricService.EntryIgnoresEvent | jans-fido2/server/src/main/java/io/jans/fido2/service/shared/MetricService.java:332-341 | the entry does not depend on the event: any two descriptions at the same time and node give the same entry |
| MetricService.RunRecordingTask | jans-fido2/server/src/main/java/io/jans/fido2/service/shared/MetricService.java:107-119 | a recording task never fails; it writes an error line exactly when storing failed, namely "Error recording passkey <kind>: " followed by the message, or "null" when there is none |

## Left out

- **PostgreSQL I/O.** Reading settings through SPI is not modelled; a setting is the `Option<string>` the read returned. The session token functions `set_tokens`, `clear_tokens` and `get_current_token_bundle` are also left out.
- **JSON parsing.** `TokenBundle::from_json` and `build_resource_from_json` are left out. Their JSON decoding belongs to serde_json.
- **JWT library decoding.** Base64 decoding, header decoding and claim extraction belong to the JWT library. They are a `decode` parameter and an abstract decode result.
- **Unknown `alg` names.** The library's error text for an unknown `alg` name is not reproduced; the model uses its own text.
- **Signature verification.** The source does not perform one.
- **Engine start-up.** The Cedarling bootstrap, its global cell and the engine's own evaluation are not modelled. The engine is an optional function parameter.
- **Timing.** The execution times measured in `authorize_row` are never used.
- **Logging and audit side effects.** Warnings, info and debug output, `log_with_audit` and `store_audit_entry` are left out. Warnings are returned as a list instead.
- **Audit timestamp and id.** The clock and the random UUID in `to_audit_log` are inputs.
- **Row hash.** The `DefaultHasher` value behind the "row_" fallback id is an input.
- **Placeholder row introspection.** `build_resource_from_row` and `get_table_name_from_context` are left out. `lib.rs`, with the extension entry points and the `pg_extern` wrappers, is not part of this model.
- **Unicode.** Case mapping is ASCII only, which matters for `to_lowercase` and `to_uppercase` on non-ASCII letters.
- Jws.PadJwtPart: pads to a multiple of four CHARACTERS, while `padded.len()` in Rust counts UTF-8 BYTES. The two differ only for a part with non-ASCII characters ("é" gets "==" in Rust and "===" here), which the base64 decoder rejects either way.
- Token.Validate: takes one `now` for all three tokens, while `validate_standard_claims` reads the clock on each call. A bundle validated across a second boundary can therefore be judged differently by the source.
- Token.ValidateStandardClaims: does not model the 64-bit overflow of `now - iat` in Rust. The overflow could only affect the over-a-day warning.
- Resource.EntityTypeExampleUserProfiles: the unit test's third vector, "order_items", is not stated separately. `Resource.TwoWords` covers it.
- **MetricService plumbing.** The executor (`runAsync`, `shutdown`), the `add` persistence call, the MAC-address lookup, `new Date()`, `initTimer`, `baseDn` and `getEntryManager` are not modelled. They are inputs or out of scope.
- MetricService.CreateMetricEntry: `MetricEntry` fields that the method leaves unset are not part of the model.
- **Batching and retention.** Batching, queueing and retention reaping are not implemented by the code. They have nothing to model.
- **REST framework.** JAX-RS annotations, JSON binding and OAuth scope checks are left out. The exception that `checkResourceNotNull` raises is shown only as a rejection naming the object.
- **Store semantics.** `fido2Service.find` / `merge` are one stored value. `merge` is taken to store the object exactly as given.
- **Plain accessors.** The plain getters and setters of `AppConfiguration` are the record's fields and field update. A setter therefore changes only its own field by construction.
