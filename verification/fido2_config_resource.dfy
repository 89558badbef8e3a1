/**
 * The FIDO2 configuration REST resource of the config API
 * (jans-config-api/plugins/fido2-plugin/src/main/java/io/jans/configapi/plugin/fido2/rest/Fido2ConfigResource.java).
 *
 * The configuration store behind `fido2Service.find()` / `merge(...)` is a single
 * `AppConfiguration` value: every handler takes the stored value and returns the response
 * together with the value stored afterwards. `find()` hands out a copy, so state the getters
 * write into that copy during a GET is not stored.
 */
module Fido2ConfigResource {
  import opened Wrappers
  import opened AppConfig

  /** The metrics DTO; its getters and setters are plain, so a `null` field stays `None`. */
  datatype PasskeyMetricsConfig = PasskeyMetricsConfig(
    passkeyMetricsEnabled: Option<bool>,
    passkeyMetricsRetentionDays: Option<Int32>,
    passkeyMetricsAsyncStorage: Option<bool>,
    passkeyMetricsBatchSize: Option<Int32>,
    registrationMetricsEnabled: Option<bool>,
    authenticationMetricsEnabled: Option<bool>,
    deviceInfoCollection: Option<bool>,
    errorCategorization: Option<bool>)

  /** A handler's outcome: a body, or the rejection `checkResourceNotNull` raises for the named object. */
  datatype Response<T> = Success(body: T) | Rejected(objectName: string)

  /** A handler's response and the stored configuration after it. */
  datatype Outcome<T> = Outcome(response: Response<T>, store: AppConfiguration)

  const Fido2ConfigurationName := "fido2Configuration"
  const Fido2MetricsConfigurationName := "fido2MetricsConfiguration"

  /** `getFido2Configuration`: the stored configuration as it is. */
  function GetFido2Configuration(store: AppConfiguration): (r: Outcome<AppConfiguration>)
    ensures r.response == Success(store) && r.store == store
  {
    Outcome(Success(store), store)
  }

  /**
   * `getFido2MetricsConfiguration`: the eight metrics settings, each read through its
   * defaulting getter, so no field of the response is `null`.
   */
  function GetFido2MetricsConfiguration(store: AppConfiguration): (r: Outcome<PasskeyMetricsConfig>)
    ensures r.store == store
    ensures r.response.Success?
    ensures var m := r.response.body;
      && m.passkeyMetricsEnabled == Some(store.passkeyMetricsEnabled.GetOr(DefaultPasskeyMetricsEnabled))
      && m.passkeyMetricsRetentionDays == Some(store.passkeyMetricsRetentionDays.GetOr(DefaultPasskeyMetricsRetentionDays))
      && m.passkeyMetricsAsyncStorage == Some(store.passkeyMetricsAsyncStorage.GetOr(DefaultPasskeyMetricsAsyncStorage))
      && m.passkeyMetricsBatchSize == Some(store.passkeyMetricsBatchSize.GetOr(DefaultPasskeyMetricsBatchSize))
      && m.registrationMetricsEnabled == Some(store.registrationMetricsEnabled.GetOr(DefaultRegistrationMetricsEnabled))
      && m.authenticationMetricsEnabled == Some(store.authenticationMetricsEnabled.GetOr(DefaultAuthenticationMetricsEnabled))
      && m.deviceInfoCollection == Some(store.deviceInfoCollection.GetOr(DefaultDeviceInfoCollection))
      && m.errorCategorization == Some(store.errorCategorization.GetOr(DefaultErrorCategorization))
  {
    var v := ReadMetrics(store).value;
    Outcome(Success(PasskeyMetricsConfig(
      Some(v.enabled), Some(v.retentionDays), Some(v.asyncStorage), Some(v.batchSize),
      Some(v.registration), Some(v.authentication), Some(v.deviceInfo), Some(v.errorCategorization))),
      store)
  }

  /** The stored configuration with the eight metrics fields copied from the DTO, `null`s included. */
  function ApplyMetrics(c: AppConfiguration, m: PasskeyMetricsConfig): AppConfiguration {
    c.(passkeyMetricsEnabled := m.passkeyMetricsEnabled,
       passkeyMetricsRetentionDays := m.passkeyMetricsRetentionDays,
       passkeyMetricsAsyncStorage := m.passkeyMetricsAsyncStorage,
       passkeyMetricsBatchSize := m.passkeyMetricsBatchSize,
       registrationMetricsEnabled := m.registrationMetricsEnabled,
       authenticationMetricsEnabled := m.authenticationMetricsEnabled,
       deviceInfoCollection := m.deviceInfoCollection,
       errorCategorization := m.errorCategorization)
  }

  /** The metrics view of a stored configuration: the DTO a metrics PUT would have written. */
  function MetricsOf(c: AppConfiguration): PasskeyMetricsConfig {
    PasskeyMetricsConfig(
      c.passkeyMetricsEnabled, c.passkeyMetricsRetentionDays, c.passkeyMetricsAsyncStorage,
      c.passkeyMetricsBatchSize, c.registrationMetricsEnabled, c.authenticationMetricsEnabled,
      c.deviceInfoCollection, c.errorCategorization)
  }

  /**
   * `updateFido2MetricsConfiguration`: a `null` body is rejected before the store is read;
   * otherwise exactly the eight metrics fields are overwritten, the result is stored, and the
   * response is a fresh metrics GET of what was stored.
   */
  function UpdateFido2MetricsConfiguration(store: AppConfiguration, body: Option<PasskeyMetricsConfig>)
    : (r: Outcome<PasskeyMetricsConfig>)
    ensures body.None? ==> r == Outcome(Rejected(Fido2MetricsConfigurationName), store)
    ensures body.Some? ==> MetricsOf(r.store) == body.value
    ensures SameOutsideMetrics(r.store, store)
    ensures body.Some? ==> r == GetFido2MetricsConfiguration(r.store)
  {
    match body
    case None => Outcome(Rejected(Fido2MetricsConfigurationName), store)
    case Some(m) =>
      var merged := ApplyMetrics(store, m);
      GetFido2MetricsConfiguration(merged)
  }

  /** A metrics PUT never touches a field outside the eight metrics settings. */
  lemma MetricsUpdateKeepsOtherFields(store: AppConfiguration, body: Option<PasskeyMetricsConfig>)
    ensures var s := UpdateFido2MetricsConfiguration(store, body).store;
      && s.issuer == store.issuer && s.baseEndpoint == store.baseEndpoint
      && s.cleanServiceBatchChunkSize == store.cleanServiceBatchChunkSize
      && s.sessionIdPersistInCache == store.sessionIdPersistInCache
      && s.errorReasonEnabled == store.errorReasonEnabled
      && s.fido2Configuration == store.fido2Configuration
  {
  }

  /**
   * How one field of a metrics PUT ends up: stored exactly as sent, `null` included, and
   * answered as sent, or with the field's default when it was sent as `null`.
   */
  predicate StoredAndAnswered<T(==)>(sent: Option<T>, stored: Option<T>, answered: Option<T>, default: T) {
    && stored == sent
    && (sent.None? ==> answered == Some(default))
    && (sent.Some? ==> answered == sent)
  }

  /**
   * Every one of the eight fields of a metrics PUT is stored as sent and answered as sent,
   * except that a `null` is answered, in this response and in every later GET, with the
   * field's default.
   */
  lemma MetricsUpdateResponse(store: AppConfiguration, m: PasskeyMetricsConfig)
    ensures var r := UpdateFido2MetricsConfiguration(store, Some(m));
      && r.response.Success?
      && StoredAndAnswered(m.passkeyMetricsEnabled, r.store.passkeyMetricsEnabled,
                           r.response.body.passkeyMetricsEnabled, true)
      && StoredAndAnswered(m.passkeyMetricsRetentionDays, r.store.passkeyMetricsRetentionDays,
                           r.response.body.passkeyMetricsRetentionDays, 90)
      && StoredAndAnswered(m.passkeyMetricsAsyncStorage, r.store.passkeyMetricsAsyncStorage,
                           r.response.body.passkeyMetricsAsyncStorage, true)
      && StoredAndAnswered(m.passkeyMetricsBatchSize, r.store.passkeyMetricsBatchSize,
                           r.response.body.passkeyMetricsBatchSize, 100)
      && StoredAndAnswered(m.registrationMetricsEnabled, r.store.registrationMetricsEnabled,
                           r.response.body.registrationMetricsEnabled, true)
      && StoredAndAnswered(m.authenticationMetricsEnabled, r.store.authenticationMetricsEnabled,
                           r.response.body.authenticationMetricsEnabled, true)
      && StoredAndAnswered(m.deviceInfoCollection, r.store.deviceInfoCollection,
                           r.response.body.deviceInfoCollection, true)
      && StoredAndAnswered(m.errorCategorization, r.store.errorCategorization,
                           r.response.body.errorCategorization, true)
  {
  }

  /** A body with every field given round-trips: the response is the body itself. */
  lemma CompleteMetricsRoundTrip(store: AppConfiguration, m: PasskeyMetricsConfig)
    requires m.passkeyMetricsEnabled.Some? && m.passkeyMetricsRetentionDays.Some?
    requires m.passkeyMetricsAsyncStorage.Some? && m.passkeyMetricsBatchSize.Some?
    requires m.registrationMetricsEnabled.Some? && m.authenticationMetricsEnabled.Some?
    requires m.deviceInfoCollection.Some? && m.errorCategorization.Some?
    ensures UpdateFido2MetricsConfiguration(store, Some(m)).response == Success(m)
  {
  }

  /** Two metrics PUTs in a row leave the store as the second alone would. */
  lemma MetricsUpdateLastWins(store: AppConfiguration, m1: PasskeyMetricsConfig, m2: PasskeyMetricsConfig)
    ensures UpdateFido2MetricsConfiguration(UpdateFido2MetricsConfiguration(store, Some(m1)).store, Some(m2))
            == UpdateFido2MetricsConfiguration(store, Some(m2))
  {
  }

  /**
   * `updateFido2Configuration`: a `null` body is rejected; otherwise the body replaces the
   * stored configuration and the response is what is then stored.
   */
  function UpdateFido2Configuration(store: AppConfiguration, body: Option<AppConfiguration>)
    : (r: Outcome<AppConfiguration>)
    ensures body.None? ==> r == Outcome(Rejected(Fido2ConfigurationName), store)
    ensures body.Some? ==> r.store == body.value && r.response == Success(r.store)
  {
    match body
    case None => Outcome(Rejected(Fido2ConfigurationName), store)
    case Some(c) => GetFido2Configuration(c)
  }
}
