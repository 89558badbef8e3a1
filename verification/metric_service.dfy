/**
 * Passkey metrics recording in the FIDO2 server
 * (jans-fido2/server/src/main/java/io/jans/fido2/service/shared/MetricService.java).
 *
 * Each `recordPasskey*` method checks the passkey-metrics gate and, when it is open, hands a
 * task to a single-thread executor. The task builds a context map, creates a metric entry and
 * stores it, and turns any exception into a line on standard error. The model keeps what is
 * decided before the hand-off (the gate and the description the task is built from) and the
 * task's two pure steps (entry creation and error handling); the executor, the clock, the
 * MAC-address lookup and the persistence call are inputs or left out.
 */
module MetricService {
  import opened Wrappers
  import opened Json
  import opened Strings
  import opened AppConfig

  /** Java `long` values. */
  type Int64 = x: int | -0x8000_0000_0000_0000 <= x < 0x8000_0000_0000_0000

  /** The ten kinds of passkey event, one per `recordPasskey*` method. */
  datatype EventKind =
    | PasskeyRegistrationAttempt | PasskeyRegistrationSuccess | PasskeyRegistrationFailure
    | PasskeyAuthenticationAttempt | PasskeyAuthenticationSuccess | PasskeyAuthenticationFailure
    | PasskeyNudgeShown | PasskeyNudgeAccepted | PasskeyNudgeDeclined
    | PasskeyFallback

  /** A call of one of the `recordPasskey*` methods with its arguments; `None` is a `null` string. */
  datatype PasskeyEvent =
    | RegistrationAttempt(userId: Option<string>, deviceInfo: Option<string>, startTime: Int64)
    | RegistrationSuccess(userId: Option<string>, deviceInfo: Option<string>, duration: Int64)
    | RegistrationFailure(userId: Option<string>, deviceInfo: Option<string>, errorReason: Option<string>, duration: Int64)
    | AuthenticationAttempt(userId: Option<string>, deviceInfo: Option<string>, startTime: Int64)
    | AuthenticationSuccess(userId: Option<string>, deviceInfo: Option<string>, duration: Int64)
    | AuthenticationFailure(userId: Option<string>, deviceInfo: Option<string>, errorReason: Option<string>, duration: Int64)
    | NudgeShown(userId: Option<string>, nudgeContext: Option<string>)
    | NudgeAccepted(userId: Option<string>, nudgeContext: Option<string>)
    | NudgeDeclined(userId: Option<string>, nudgeContext: Option<string>)
    | Fallback(userId: Option<string>, fallbackMethod: Option<string>, reason: Option<string>)

  function KindOf(e: PasskeyEvent): EventKind {
    match e
    case RegistrationAttempt(_, _, _) => PasskeyRegistrationAttempt
    case RegistrationSuccess(_, _, _) => PasskeyRegistrationSuccess
    case RegistrationFailure(_, _, _, _) => PasskeyRegistrationFailure
    case AuthenticationAttempt(_, _, _) => PasskeyAuthenticationAttempt
    case AuthenticationSuccess(_, _, _) => PasskeyAuthenticationSuccess
    case AuthenticationFailure(_, _, _, _) => PasskeyAuthenticationFailure
    case NudgeShown(_, _) => PasskeyNudgeShown
    case NudgeAccepted(_, _) => PasskeyNudgeAccepted
    case NudgeDeclined(_, _) => PasskeyNudgeDeclined
    case Fallback(_, _, _) => PasskeyFallback
  }

  /** The event-type string each method passes to `createMetricEntry`. */
  function EventTypeName(k: EventKind): string {
    match k
    case PasskeyRegistrationAttempt => "PASSKEY_REGISTRATION_ATTEMPT"
    case PasskeyRegistrationSuccess => "PASSKEY_REGISTRATION_SUCCESS"
    case PasskeyRegistrationFailure => "PASSKEY_REGISTRATION_FAILURE"
    case PasskeyAuthenticationAttempt => "PASSKEY_AUTHENTICATION_ATTEMPT"
    case PasskeyAuthenticationSuccess => "PASSKEY_AUTHENTICATION_SUCCESS"
    case PasskeyAuthenticationFailure => "PASSKEY_AUTHENTICATION_FAILURE"
    case PasskeyNudgeShown => "PASSKEY_NUDGE_SHOWN"
    case PasskeyNudgeAccepted => "PASSKEY_NUDGE_ACCEPTED"
    case PasskeyNudgeDeclined => "PASSKEY_NUDGE_DECLINED"
    case PasskeyFallback => "PASSKEY_FALLBACK"
  }

  function EventKindFromName(s: string): (k: Option<EventKind>)
    ensures k.Some? ==> EventTypeName(k.value) == s
  {
    match s
    case "PASSKEY_REGISTRATION_ATTEMPT" => Some(PasskeyRegistrationAttempt)
    case "PASSKEY_REGISTRATION_SUCCESS" => Some(PasskeyRegistrationSuccess)
    case "PASSKEY_REGISTRATION_FAILURE" => Some(PasskeyRegistrationFailure)
    case "PASSKEY_AUTHENTICATION_ATTEMPT" => Some(PasskeyAuthenticationAttempt)
    case "PASSKEY_AUTHENTICATION_SUCCESS" => Some(PasskeyAuthenticationSuccess)
    case "PASSKEY_AUTHENTICATION_FAILURE" => Some(PasskeyAuthenticationFailure)
    case "PASSKEY_NUDGE_SHOWN" => Some(PasskeyNudgeShown)
    case "PASSKEY_NUDGE_ACCEPTED" => Some(PasskeyNudgeAccepted)
    case "PASSKEY_NUDGE_DECLINED" => Some(PasskeyNudgeDeclined)
    case "PASSKEY_FALLBACK" => Some(PasskeyFallback)
    case _ => None
  }

  /** Event-type names identify the kind: the name of every kind reads back to that kind. */
  lemma EventTypeNameRoundTrip(k: EventKind)
    ensures EventKindFromName(EventTypeName(k)) == Some(k)
  {
  }

  /** The kinds recorded as unsuccessful. */
  const FailureKinds: set<EventKind> :=
    {PasskeyRegistrationFailure, PasskeyAuthenticationFailure, PasskeyNudgeDeclined, PasskeyFallback}

  /** The kinds that carry the caller's duration; every other kind records duration 0. */
  const TimedKinds: set<EventKind> :=
    {PasskeyRegistrationSuccess, PasskeyRegistrationFailure,
     PasskeyAuthenticationSuccess, PasskeyAuthenticationFailure}

  /** The context keys each kind records. */
  function ContextKeys(k: EventKind): set<string> {
    match k
    case PasskeyRegistrationAttempt => {"deviceInfo", "startTime"}
    case PasskeyAuthenticationAttempt => {"deviceInfo", "startTime"}
    case PasskeyRegistrationSuccess => {"deviceInfo", "duration"}
    case PasskeyAuthenticationSuccess => {"deviceInfo", "duration"}
    case PasskeyRegistrationFailure => {"deviceInfo", "errorReason", "duration"}
    case PasskeyAuthenticationFailure => {"deviceInfo", "errorReason", "duration"}
    case PasskeyNudgeShown => {"nudgeContext"}
    case PasskeyNudgeAccepted => {"nudgeContext"}
    case PasskeyNudgeDeclined => {"nudgeContext"}
    case PasskeyFallback => {"fallbackMethod", "reason"}
  }

  /** A nullable Java string as a context value. */
  function Text(s: Option<string>): Value {
    match s
    case Some(t) => Str(t)
    case None => Null
  }

  /** The arguments of the `createMetricEntry` call a recording task makes. */
  datatype Description = Description(
    eventType: string,
    userId: Option<string>,
    success: bool,
    duration: Int64,
    context: map<string, Value>)

  /** The duration argument a caller passed, where the method has one. */
  function CallerDuration(e: PasskeyEvent): Option<Int64> {
    match e
    case RegistrationSuccess(_, _, d) => Some(d)
    case RegistrationFailure(_, _, _, d) => Some(d)
    case AuthenticationSuccess(_, _, d) => Some(d)
    case AuthenticationFailure(_, _, _, d) => Some(d)
    case _ => None
  }

  /** What each `recordPasskey*` method describes to `createMetricEntry`. */
  function Describe(e: PasskeyEvent): (d: Description)
    ensures EventKindFromName(d.eventType) == Some(KindOf(e))
    ensures d.userId == e.userId
    ensures d.success <==> KindOf(e) !in FailureKinds
    ensures KindOf(e) in TimedKinds ==> CallerDuration(e) == Some(d.duration)
    ensures KindOf(e) !in TimedKinds ==> d.duration == 0
    ensures d.context.Keys == ContextKeys(KindOf(e))
    ensures "duration" in d.context ==> d.context["duration"] == Int(d.duration)
    ensures "deviceInfo" in d.context ==> d.context["deviceInfo"] == Text(e.deviceInfo)
    ensures e.RegistrationAttempt? || e.AuthenticationAttempt? ==>
              d.context["startTime"] == Int(e.startTime)
    ensures e.RegistrationFailure? || e.AuthenticationFailure? ==>
              d.context["errorReason"] == Text(e.errorReason)
    ensures e.NudgeShown? || e.NudgeAccepted? || e.NudgeDeclined? ==>
              d.context["nudgeContext"] == Text(e.nudgeContext)
    ensures e.Fallback? ==>
              d.context["fallbackMethod"] == Text(e.fallbackMethod) && d.context["reason"] == Text(e.reason)
  {
    EventTypeNameRoundTrip(KindOf(e));
    match e
    case RegistrationAttempt(u, dev, start) =>
      Description(EventTypeName(PasskeyRegistrationAttempt), u, true, 0,
        map["deviceInfo" := Text(dev), "startTime" := Int(start)])
    case RegistrationSuccess(u, dev, dur) =>
      Description(EventTypeName(PasskeyRegistrationSuccess), u, true, dur,
        map["deviceInfo" := Text(dev), "duration" := Int(dur)])
    case RegistrationFailure(u, dev, why, dur) =>
      Description(EventTypeName(PasskeyRegistrationFailure), u, false, dur,
        map["deviceInfo" := Text(dev), "errorReason" := Text(why), "duration" := Int(dur)])
    case AuthenticationAttempt(u, dev, start) =>
      Description(EventTypeName(PasskeyAuthenticationAttempt), u, true, 0,
        map["deviceInfo" := Text(dev), "startTime" := Int(start)])
    case AuthenticationSuccess(u, dev, dur) =>
      Description(EventTypeName(PasskeyAuthenticationSuccess), u, true, dur,
        map["deviceInfo" := Text(dev), "duration" := Int(dur)])
    case AuthenticationFailure(u, dev, why, dur) =>
      Description(EventTypeName(PasskeyAuthenticationFailure), u, false, dur,
        map["deviceInfo" := Text(dev), "errorReason" := Text(why), "duration" := Int(dur)])
    case NudgeShown(u, ctx) =>
      Description(EventTypeName(PasskeyNudgeShown), u, true, 0, map["nudgeContext" := Text(ctx)])
    case NudgeAccepted(u, ctx) =>
      Description(EventTypeName(PasskeyNudgeAccepted), u, true, 0, map["nudgeContext" := Text(ctx)])
    case NudgeDeclined(u, ctx) =>
      Description(EventTypeName(PasskeyNudgeDeclined), u, false, 0, map["nudgeContext" := Text(ctx)])
    case Fallback(u, via, why) =>
      Description(EventTypeName(PasskeyFallback), u, false, 0,
        map["fallbackMethod" := Text(via), "reason" := Text(why)])
  }

  /** A start time is recorded in the context of attempts only, never as the duration. */
  lemma AttemptKeepsStartTime(e: PasskeyEvent)
    requires e.RegistrationAttempt? || e.AuthenticationAttempt?
    ensures Describe(e).context["startTime"] == Int(e.startTime)
    ensures Describe(e).duration == 0
  {
  }

  /**
   * `isPasskeyMetricsEnabled`: `getPasskeyMetricsEnabled() != null && getPasskeyMetricsEnabled()`.
   * The getter replaces a `null` field by its default `true` before returning, so the null test
   * never fails and a `null` setting opens the gate; only an explicit `false` closes it.
   */
  function IsPasskeyMetricsEnabled(c: AppConfiguration): (r: Read<bool>)
    ensures r.value <==> c.passkeyMetricsEnabled != Some(false)
    ensures r.config == GetPasskeyMetricsEnabled(c).config
  {
    var first := GetPasskeyMetricsEnabled(c);
    var second := GetPasskeyMetricsEnabled(first.config);
    Read(second.value, second.config)
  }

  /** What a `recordPasskey*` call does before returning: maybe hand off a task, and the configuration after the gate read. */
  datatype Submission = Submission(task: Option<Description>, config: AppConfiguration)

  function RecordPasskey(c: AppConfiguration, e: PasskeyEvent): (r: Submission)
    ensures r.task.Some? <==> c.passkeyMetricsEnabled != Some(false)
    ensures r.task.Some? ==> r.task.value == Describe(e)
    ensures r.task.Some? ==> r.task.value.eventType == EventTypeName(KindOf(e))
    ensures r.config == GetPasskeyMetricsEnabled(c).config
    ensures r.config.passkeyMetricsEnabled.Some?
    ensures SameOutsideMetrics(r.config, c)
  {
    var gate := IsPasskeyMetricsEnabled(c);
    if !gate.value then Submission(None, gate.config)
    else Submission(Some(Describe(e)), gate.config)
  }

  /** When passkey metrics are switched off, no method hands anything to the executor. */
  lemma DisabledRecordsNothing(c: AppConfiguration, e: PasskeyEvent)
    requires c.passkeyMetricsEnabled == Some(false)
    ensures RecordPasskey(c, e) == Submission(None, c)
  {
  }

  datatype ApplicationType = Fido2

  /**
   * The part of `MetricEntry` that `createMetricEntry` fills in; every other field of the
   * entry is left unset, and so is not part of this model.
   */
  datatype MetricEntry = MetricEntry(
    creationDate: int,
    applicationType: ApplicationType,
    nodeIdentifier: Option<string>)

  /**
   * `createMetricEntry`: the creation time (`now`), the application type and the node
   * identifier (the host's MAC address, `node`). The description is accepted and not used.
   */
  function CreateMetricEntry(d: Description, now: int, node: Option<string>): (entry: MetricEntry)
    ensures entry.creationDate == now
    ensures entry.applicationType == Fido2
    ensures entry.nodeIdentifier == node
  {
    MetricEntry(now, Fido2, node)
  }

  /** The entry records nothing of the event: two events at the same time and node give the same entry. */
  lemma EntryIgnoresEvent(d1: Description, d2: Description, now: int, node: Option<string>)
    ensures CreateMetricEntry(d1, now, node) == CreateMetricEntry(d2, now, node)
  {
  }

  /** The wording each method uses in its error line. */
  function TaskLabel(k: EventKind): string {
    match k
    case PasskeyRegistrationAttempt => "registration attempt"
    case PasskeyRegistrationSuccess => "registration success"
    case PasskeyRegistrationFailure => "registration failure"
    case PasskeyAuthenticationAttempt => "authentication attempt"
    case PasskeyAuthenticationSuccess => "authentication success"
    case PasskeyAuthenticationFailure => "authentication failure"
    case PasskeyNudgeShown => "nudge shown"
    case PasskeyNudgeAccepted => "nudge accepted"
    case PasskeyNudgeDeclined => "nudge declined"
    case PasskeyFallback => "fallback"
  }

  /**
   * The body of a recording task, given how storing the entry went (`Err` carries the
   * exception's message, `None` for a `null` message). The task never fails: a failure
   * becomes the line it writes to standard error, and success writes nothing.
   */
  function RunRecordingTask(k: EventKind, stored: Result<(), Option<string>>): (errLine: Option<string>)
    ensures errLine.None? <==> stored.Ok?
    ensures errLine.Some? ==> StartsWith(errLine.value, "Error recording passkey ")
    ensures errLine.Some? && stored.error.Some? ==>
              errLine.value == "Error recording passkey " + TaskLabel(k) + ": " + stored.error.value
    ensures errLine.Some? && stored.error.None? ==>
              errLine.value == "Error recording passkey " + TaskLabel(k) + ": null"
  {
    match stored
    case Ok(_) => None
    case Err(message) =>
      Some("Error recording passkey " + TaskLabel(k) + ": " + message.GetOr("null"))
  }
}
