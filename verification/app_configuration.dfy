/**
 * The FIDO2 server configuration object
 * (jans-fido2/model/src/main/java/io/jans/fido2/model/conf/AppConfiguration.java).
 *
 * The Java bean is modelled as an immutable record; a Java `null` in a reference-typed field
 * (`String`, `Boolean`, `Integer`, `List`) is `None`. Plain getters and setters are the
 * record's field selectors and `c.(field := v)`. Nine getters are not plain: when their field
 * is `null` they first store the field's default into the object and then return it. Since
 * that read writes, each of those getters returns the value together with the updated object.
 */
module AppConfig {
  import opened Wrappers
  import opened Json

  /** Java `int` / `Integer` values. */
  type Int32 = x: int | -0x8000_0000 <= x < 0x8000_0000

  datatype AppConfiguration = AppConfiguration(
    issuer: Option<string>,
    baseEndpoint: Option<string>,
    cleanServiceInterval: Int32,
    cleanServiceBatchChunkSize: Int32,
    useLocalCache: bool,
    disableJdkLogger: bool,
    loggingLevel: Option<string>,
    loggingLayout: Option<string>,
    externalLoggerConfiguration: Option<string>,
    metricReporterInterval: Int32,
    metricReporterKeepDataDays: Int32,
    metricReporterEnabled: bool,
    personCustomObjectClassList: Option<seq<string>>,
    sessionIdPersistInCache: Option<bool>,
    errorReasonEnabled: Option<bool>,
    passkeyMetricsEnabled: Option<bool>,
    passkeyMetricsRetentionDays: Option<Int32>,
    passkeyMetricsAsyncStorage: Option<bool>,
    passkeyMetricsBatchSize: Option<Int32>,
    registrationMetricsEnabled: Option<bool>,
    authenticationMetricsEnabled: Option<bool>,
    deviceInfoCollection: Option<bool>,
    errorCategorization: Option<bool>,
    /** The nested `Fido2Configuration` object, whose structure is not part of this model. */
    fido2Configuration: Option<Value>)

  /** The result of a defaulting getter: the value returned and the object after the call. */
  datatype Read<T> = Read(value: T, config: AppConfiguration)

  const DefaultSessionIdPersistInCache := false
  const DefaultPasskeyMetricsEnabled := true
  const DefaultPasskeyMetricsRetentionDays: Int32 := 90
  const DefaultPasskeyMetricsAsyncStorage := true
  const DefaultPasskeyMetricsBatchSize: Int32 := 100
  const DefaultRegistrationMetricsEnabled := true
  const DefaultAuthenticationMetricsEnabled := true
  const DefaultDeviceInfoCollection := true
  const DefaultErrorCategorization := true

  /** A freshly constructed object: field initialisers where the class has them, Java defaults elsewhere. */
  function NewAppConfiguration(): (c: AppConfiguration)
    ensures c.cleanServiceBatchChunkSize == 100
    ensures c.disableJdkLogger && c.metricReporterEnabled
    ensures c.sessionIdPersistInCache == Some(false) && c.errorReasonEnabled == Some(false)
    ensures c.passkeyMetricsEnabled == Some(true)
    ensures c.passkeyMetricsRetentionDays == Some(90)
    ensures c.passkeyMetricsAsyncStorage == Some(true)
    ensures c.passkeyMetricsBatchSize == Some(100)
    ensures c.registrationMetricsEnabled == Some(true)
    ensures c.authenticationMetricsEnabled == Some(true)
    ensures c.deviceInfoCollection == Some(true)
    ensures c.errorCategorization == Some(true)
    ensures c.issuer.None? && c.baseEndpoint.None? && c.fido2Configuration.None?
    ensures c.cleanServiceInterval == 0 && !c.useLocalCache
  {
    AppConfiguration(
      None, None, 0, 100, false, true, None, None, None, 0, 0, true, None,
      Some(DefaultSessionIdPersistInCache), Some(false),
      Some(DefaultPasskeyMetricsEnabled), Some(DefaultPasskeyMetricsRetentionDays),
      Some(DefaultPasskeyMetricsAsyncStorage), Some(DefaultPasskeyMetricsBatchSize),
      Some(DefaultRegistrationMetricsEnabled), Some(DefaultAuthenticationMetricsEnabled),
      Some(DefaultDeviceInfoCollection), Some(DefaultErrorCategorization),
      None)
  }

  /*
   * The defaulting getters. Each returns the stored value when there is one (and leaves the
   * object alone), and otherwise stores and returns the default; no other field is touched.
   */

  function GetSessionIdPersistInCache(c: AppConfiguration): (r: Read<bool>)
    ensures c.sessionIdPersistInCache.Some? ==> r == Read(c.sessionIdPersistInCache.value, c)
    ensures c.sessionIdPersistInCache.None? ==> r.value == DefaultSessionIdPersistInCache
    ensures r.config.sessionIdPersistInCache == Some(r.value)
    ensures r.config == c.(sessionIdPersistInCache := Some(r.value))
    ensures r.config.(sessionIdPersistInCache := c.sessionIdPersistInCache) == c
  {
    if c.sessionIdPersistInCache.None?
    then Read(DefaultSessionIdPersistInCache, c.(sessionIdPersistInCache := Some(DefaultSessionIdPersistInCache)))
    else Read(c.sessionIdPersistInCache.value, c)
  }

  function GetPasskeyMetricsEnabled(c: AppConfiguration): (r: Read<bool>)
    ensures c.passkeyMetricsEnabled.Some? ==> r == Read(c.passkeyMetricsEnabled.value, c)
    ensures c.passkeyMetricsEnabled.None? ==> r.value == DefaultPasskeyMetricsEnabled
    ensures r.config.passkeyMetricsEnabled == Some(r.value)
    ensures r.config == c.(passkeyMetricsEnabled := Some(r.value))
    ensures r.config.(passkeyMetricsEnabled := c.passkeyMetricsEnabled) == c
  {
    if c.passkeyMetricsEnabled.None?
    then Read(DefaultPasskeyMetricsEnabled, c.(passkeyMetricsEnabled := Some(DefaultPasskeyMetricsEnabled)))
    else Read(c.passkeyMetricsEnabled.value, c)
  }

  function GetPasskeyMetricsRetentionDays(c: AppConfiguration): (r: Read<Int32>)
    ensures c.passkeyMetricsRetentionDays.Some? ==> r == Read(c.passkeyMetricsRetentionDays.value, c)
    ensures c.passkeyMetricsRetentionDays.None? ==> r.value == DefaultPasskeyMetricsRetentionDays
    ensures r.config.passkeyMetricsRetentionDays == Some(r.value)
    ensures r.config == c.(passkeyMetricsRetentionDays := Some(r.value))
    ensures r.config.(passkeyMetricsRetentionDays := c.passkeyMetricsRetentionDays) == c
  {
    if c.passkeyMetricsRetentionDays.None?
    then Read(DefaultPasskeyMetricsRetentionDays, c.(passkeyMetricsRetentionDays := Some(DefaultPasskeyMetricsRetentionDays)))
    else Read(c.passkeyMetricsRetentionDays.value, c)
  }

  function GetPasskeyMetricsAsyncStorage(c: AppConfiguration): (r: Read<bool>)
    ensures c.passkeyMetricsAsyncStorage.Some? ==> r == Read(c.passkeyMetricsAsyncStorage.value, c)
    ensures c.passkeyMetricsAsyncStorage.None? ==> r.value == DefaultPasskeyMetricsAsyncStorage
    ensures r.config.passkeyMetricsAsyncStorage == Some(r.value)
    ensures r.config == c.(passkeyMetricsAsyncStorage := Some(r.value))
    ensures r.config.(passkeyMetricsAsyncStorage := c.passkeyMetricsAsyncStorage) == c
  {
    if c.passkeyMetricsAsyncStorage.None?
    then Read(DefaultPasskeyMetricsAsyncStorage, c.(passkeyMetricsAsyncStorage := Some(DefaultPasskeyMetricsAsyncStorage)))
    else Read(c.passkeyMetricsAsyncStorage.value, c)
  }

  function GetPasskeyMetricsBatchSize(c: AppConfiguration): (r: Read<Int32>)
    ensures c.passkeyMetricsBatchSize.Some? ==> r == Read(c.passkeyMetricsBatchSize.value, c)
    ensures c.passkeyMetricsBatchSize.None? ==> r.value == DefaultPasskeyMetricsBatchSize
    ensures r.config.passkeyMetricsBatchSize == Some(r.value)
    ensures r.config == c.(passkeyMetricsBatchSize := Some(r.value))
    ensures r.config.(passkeyMetricsBatchSize := c.passkeyMetricsBatchSize) == c
  {
    if c.passkeyMetricsBatchSize.None?
    then Read(DefaultPasskeyMetricsBatchSize, c.(passkeyMetricsBatchSize := Some(DefaultPasskeyMetricsBatchSize)))
    else Read(c.passkeyMetricsBatchSize.value, c)
  }

  function GetRegistrationMetricsEnabled(c: AppConfiguration): (r: Read<bool>)
    ensures c.registrationMetricsEnabled.Some? ==> r == Read(c.registrationMetricsEnabled.value, c)
    ensures c.registrationMetricsEnabled.None? ==> r.value == DefaultRegistrationMetricsEnabled
    ensures r.config.registrationMetricsEnabled == Some(r.value)
    ensures r.config == c.(registrationMetricsEnabled := Some(r.value))
    ensures r.config.(registrationMetricsEnabled := c.registrationMetricsEnabled) == c
  {
    if c.registrationMetricsEnabled.None?
    then Read(DefaultRegistrationMetricsEnabled, c.(registrationMetricsEnabled := Some(DefaultRegistrationMetricsEnabled)))
    else Read(c.registrationMetricsEnabled.value, c)
  }

  function GetAuthenticationMetricsEnabled(c: AppConfiguration): (r: Read<bool>)
    ensures c.authenticationMetricsEnabled.Some? ==> r == Read(c.authenticationMetricsEnabled.value, c)
    ensures c.authenticationMetricsEnabled.None? ==> r.value == DefaultAuthenticationMetricsEnabled
    ensures r.config.authenticationMetricsEnabled == Some(r.value)
    ensures r.config == c.(authenticationMetricsEnabled := Some(r.value))
    ensures r.config.(authenticationMetricsEnabled := c.authenticationMetricsEnabled) == c
  {
    if c.authenticationMetricsEnabled.None?
    then Read(DefaultAuthenticationMetricsEnabled, c.(authenticationMetricsEnabled := Some(DefaultAuthenticationMetricsEnabled)))
    else Read(c.authenticationMetricsEnabled.value, c)
  }

  function GetDeviceInfoCollection(c: AppConfiguration): (r: Read<bool>)
    ensures c.deviceInfoCollection.Some? ==> r == Read(c.deviceInfoCollection.value, c)
    ensures c.deviceInfoCollection.None? ==> r.value == DefaultDeviceInfoCollection
    ensures r.config.deviceInfoCollection == Some(r.value)
    ensures r.config == c.(deviceInfoCollection := Some(r.value))
    ensures r.config.(deviceInfoCollection := c.deviceInfoCollection) == c
  {
    if c.deviceInfoCollection.None?
    then Read(DefaultDeviceInfoCollection, c.(deviceInfoCollection := Some(DefaultDeviceInfoCollection)))
    else Read(c.deviceInfoCollection.value, c)
  }

  function GetErrorCategorization(c: AppConfiguration): (r: Read<bool>)
    ensures c.errorCategorization.Some? ==> r == Read(c.errorCategorization.value, c)
    ensures c.errorCategorization.None? ==> r.value == DefaultErrorCategorization
    ensures r.config.errorCategorization == Some(r.value)
    ensures r.config == c.(errorCategorization := Some(r.value))
    ensures r.config.(errorCategorization := c.errorCategorization) == c
  {
    if c.errorCategorization.None?
    then Read(DefaultErrorCategorization, c.(errorCategorization := Some(DefaultErrorCategorization)))
    else Read(c.errorCategorization.value, c)
  }

  /** The eight passkey-metrics settings as their getters report them, in declaration order. */
  datatype MetricsView = MetricsView(
    enabled: bool, retentionDays: Int32, asyncStorage: bool, batchSize: Int32,
    registration: bool, authentication: bool, deviceInfo: bool, errorCategorization: bool)

  /** The first four metrics getters in turn: the passkey-wide settings. */
  function ReadPasskeySettings(c: AppConfiguration): (r: Read<(bool, Int32, bool, Int32)>)
    ensures r.value.0 == GetPasskeyMetricsEnabled(c).value
    ensures r.value.1 == GetPasskeyMetricsRetentionDays(c).value
    ensures r.value.2 == GetPasskeyMetricsAsyncStorage(c).value
    ensures r.value.3 == GetPasskeyMetricsBatchSize(c).value
    ensures r.config == c.(passkeyMetricsEnabled := Some(r.value.0),
                           passkeyMetricsRetentionDays := Some(r.value.1),
                           passkeyMetricsAsyncStorage := Some(r.value.2),
                           passkeyMetricsBatchSize := Some(r.value.3))
  {
    var a := GetPasskeyMetricsEnabled(c);
    var b := GetPasskeyMetricsRetentionDays(a.config);
    var d := GetPasskeyMetricsAsyncStorage(b.config);
    var e := GetPasskeyMetricsBatchSize(d.config);
    Read((a.value, b.value, d.value, e.value), e.config)
  }

  /** The last four metrics getters in turn: the per-ceremony and collection switches. */
  function ReadEventSettings(c: AppConfiguration): (r: Read<(bool, bool, bool, bool)>)
    ensures r.value.0 == GetRegistrationMetricsEnabled(c).value
    ensures r.value.1 == GetAuthenticationMetricsEnabled(c).value
    ensures r.value.2 == GetDeviceInfoCollection(c).value
    ensures r.value.3 == GetErrorCategorization(c).value
    ensures r.config == c.(registrationMetricsEnabled := Some(r.value.0),
                           authenticationMetricsEnabled := Some(r.value.1),
                           deviceInfoCollection := Some(r.value.2),
                           errorCategorization := Some(r.value.3))
  {
    var f := GetRegistrationMetricsEnabled(c);
    var g := GetAuthenticationMetricsEnabled(f.config);
    var h := GetDeviceInfoCollection(g.config);
    var i := GetErrorCategorization(h.config);
    Read((f.value, g.value, h.value, i.value), i.config)
  }

  /** Reads the eight metrics settings one getter after another, threading the object through. */
  function ReadMetrics(c: AppConfiguration): (r: Read<MetricsView>)
    ensures r.value.enabled == GetPasskeyMetricsEnabled(c).value
    ensures r.value.retentionDays == GetPasskeyMetricsRetentionDays(c).value
    ensures r.value.asyncStorage == GetPasskeyMetricsAsyncStorage(c).value
    ensures r.value.batchSize == GetPasskeyMetricsBatchSize(c).value
    ensures r.value.registration == GetRegistrationMetricsEnabled(c).value
    ensures r.value.authentication == GetAuthenticationMetricsEnabled(c).value
    ensures r.value.deviceInfo == GetDeviceInfoCollection(c).value
    ensures r.value.errorCategorization == GetErrorCategorization(c).value
    ensures MetricsFieldsSet(r.config)
    ensures SameOutsideMetrics(r.config, c)
  {
    var p := ReadPasskeySettings(c);
    var q := ReadEventSettings(p.config);
    Read(MetricsView(p.value.0, p.value.1, p.value.2, p.value.3, q.value.0, q.value.1, q.value.2, q.value.3),
         q.config)
  }

  predicate MetricsFieldsSet(c: AppConfiguration) {
    && c.passkeyMetricsEnabled.Some? && c.passkeyMetricsRetentionDays.Some?
    && c.passkeyMetricsAsyncStorage.Some? && c.passkeyMetricsBatchSize.Some?
    && c.registrationMetricsEnabled.Some? && c.authenticationMetricsEnabled.Some?
    && c.deviceInfoCollection.Some? && c.errorCategorization.Some?
  }

  /** `a` and `b` agree on every field except the eight passkey-metrics settings. */
  predicate SameOutsideMetrics(a: AppConfiguration, b: AppConfiguration) {
    a.(passkeyMetricsEnabled := None, passkeyMetricsRetentionDays := None,
       passkeyMetricsAsyncStorage := None, passkeyMetricsBatchSize := None,
       registrationMetricsEnabled := None, authenticationMetricsEnabled := None,
       deviceInfoCollection := None, errorCategorization := None)
    == b.(passkeyMetricsEnabled := None, passkeyMetricsRetentionDays := None,
          passkeyMetricsAsyncStorage := None, passkeyMetricsBatchSize := None,
          registrationMetricsEnabled := None, authenticationMetricsEnabled := None,
          deviceInfoCollection := None, errorCategorization := None)
  }

  /** A value set through a setter is what the getter then returns, with nothing stored by the read. */
  lemma SetThenGet(c: AppConfiguration, b: bool, n: Int32)
    ensures GetPasskeyMetricsEnabled(c.(passkeyMetricsEnabled := Some(b))).value == b
    ensures GetPasskeyMetricsRetentionDays(c.(passkeyMetricsRetentionDays := Some(n))).value == n
    ensures GetPasskeyMetricsAsyncStorage(c.(passkeyMetricsAsyncStorage := Some(b))).value == b
    ensures GetPasskeyMetricsBatchSize(c.(passkeyMetricsBatchSize := Some(n))).value == n
    ensures GetRegistrationMetricsEnabled(c.(registrationMetricsEnabled := Some(b))).value == b
    ensures GetAuthenticationMetricsEnabled(c.(authenticationMetricsEnabled := Some(b))).value == b
    ensures GetDeviceInfoCollection(c.(deviceInfoCollection := Some(b))).value == b
    ensures GetErrorCategorization(c.(errorCategorization := Some(b))).value == b
    ensures GetSessionIdPersistInCache(c.(sessionIdPersistInCache := Some(b))).value == b
  {
  }

  /** After setting `null`, each getter reports its default. */
  lemma NullReadsDefault(c: AppConfiguration)
    ensures GetPasskeyMetricsEnabled(c.(passkeyMetricsEnabled := None)).value == true
    ensures GetPasskeyMetricsRetentionDays(c.(passkeyMetricsRetentionDays := None)).value == 90
    ensures GetPasskeyMetricsAsyncStorage(c.(passkeyMetricsAsyncStorage := None)).value == true
    ensures GetPasskeyMetricsBatchSize(c.(passkeyMetricsBatchSize := None)).value == 100
    ensures GetRegistrationMetricsEnabled(c.(registrationMetricsEnabled := None)).value == true
    ensures GetAuthenticationMetricsEnabled(c.(authenticationMetricsEnabled := None)).value == true
    ensures GetDeviceInfoCollection(c.(deviceInfoCollection := None)).value == true
    ensures GetErrorCategorization(c.(errorCategorization := None)).value == true
    ensures GetSessionIdPersistInCache(c.(sessionIdPersistInCache := None)).value == false
  {
  }

  /**
   * A defaulting getter is idempotent: called again on the object it left behind, it returns
   * the same value and changes nothing more.
   */
  lemma GettersStabilize(c: AppConfiguration)
    ensures GetPasskeyMetricsEnabled(GetPasskeyMetricsEnabled(c).config) == GetPasskeyMetricsEnabled(c)
    ensures GetPasskeyMetricsRetentionDays(GetPasskeyMetricsRetentionDays(c).config) == GetPasskeyMetricsRetentionDays(c)
    ensures GetPasskeyMetricsAsyncStorage(GetPasskeyMetricsAsyncStorage(c).config) == GetPasskeyMetricsAsyncStorage(c)
    ensures GetPasskeyMetricsBatchSize(GetPasskeyMetricsBatchSize(c).config) == GetPasskeyMetricsBatchSize(c)
    ensures GetRegistrationMetricsEnabled(GetRegistrationMetricsEnabled(c).config) == GetRegistrationMetricsEnabled(c)
    ensures GetAuthenticationMetricsEnabled(GetAuthenticationMetricsEnabled(c).config) == GetAuthenticationMetricsEnabled(c)
    ensures GetDeviceInfoCollection(GetDeviceInfoCollection(c).config) == GetDeviceInfoCollection(c)
    ensures GetErrorCategorization(GetErrorCategorization(c).config) == GetErrorCategorization(c)
    ensures GetSessionIdPersistInCache(GetSessionIdPersistInCache(c).config) == GetSessionIdPersistInCache(c)
  {
  }

  /** On a fresh object the getters report exactly the documented defaults and store nothing. */
  lemma FreshConfigReadsDefaults()
    ensures ReadMetrics(NewAppConfiguration()).value
            == MetricsView(true, 90, true, 100, true, true, true, true)
    ensures ReadMetrics(NewAppConfiguration()).config == NewAppConfiguration()
    ensures GetSessionIdPersistInCache(NewAppConfiguration()).value == false
  {
  }
}
