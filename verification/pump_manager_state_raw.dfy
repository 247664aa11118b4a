/**
 * The raw (key/value) codec of the pump-manager state
 * (OmniBLE/PumpManager/OmniBLEPumpManagerState.swift, `init?(rawValue:)` and `rawValue`).
 *
 * `Decode` and `Encode` specify the two directions; `DecodeState` and `EncodeState`
 * are the step-by-step versions the Swift code is (local variables reassigned, sets
 * filled by a loop, a dictionary built key by key) and are proved against them.
 */
module PumpManagerStateRaw {
  import opened Wrappers
  import opened RawValues
  import opened Collaborators
  import opened PumpManagerState
  import Ids

  // ---------------------------------------------------------------------------
  // Lists of raw entries

  /** `compactMap { T(rawValue: $0) }`: the entries that parse, in their original order. */
  function CompactMap<T(!new)>(raws: seq<RawDict>, parse: RawDict -> Option<T>): (r: seq<T>)
    ensures |r| <= |raws|
  {
    if raws == [] then []
    else
      var rest := CompactMap(raws[1..], parse);
      match parse(raws[0])
      case Some(x) => [x] + rest
      case None => rest
  }

  /** Decoding a concatenation decodes each part: the order of the entries is kept. */
  lemma {:induction false} CompactMapAppend<T(!new)>(a: seq<RawDict>, b: seq<RawDict>, parse: RawDict -> Option<T>)
    ensures CompactMap(a + b, parse) == CompactMap(a, parse) + CompactMap(b, parse)
  {
    if a == [] {
      assert a + b == b;
    } else {
      assert (a + b)[0] == a[0];
      assert (a + b)[1..] == a[1..] + b;
      CompactMapAppend(a[1..], b, parse);
    }
  }

  /** A value is in the result exactly when some entry parses to it. */
  lemma {:induction false} CompactMapMembership<T(!new)>(raws: seq<RawDict>, parse: RawDict -> Option<T>, x: T)
    ensures x in CompactMap(raws, parse) <==> exists i :: 0 <= i < |raws| && parse(raws[i]) == Some(x)
  {
    if raws != [] {
      CompactMapMembership(raws[1..], parse, x);
      if x in CompactMap(raws[1..], parse) {
        var i :| 0 <= i < |raws[1..]| && parse(raws[1..][i]) == Some(x);
        assert parse(raws[i + 1]) == Some(x);
      }
      if exists i :: 0 <= i < |raws| && parse(raws[i]) == Some(x) {
        var i :| 0 <= i < |raws| && parse(raws[i]) == Some(x);
        if i > 0 {
          assert parse(raws[1..][i - 1]) == Some(x);
        }
      }
    }
  }

  /** When every entry parses, nothing is dropped and entry i becomes element i. */
  lemma {:induction false} CompactMapAllParse<T(!new)>(raws: seq<RawDict>, parse: RawDict -> Option<T>)
    requires forall i :: 0 <= i < |raws| ==> parse(raws[i]).Some?
    ensures |CompactMap(raws, parse)| == |raws|
    ensures forall i :: 0 <= i < |raws| ==> CompactMap(raws, parse)[i] == parse(raws[i]).value
  {
    if raws != [] {
      CompactMapAllParse(raws[1..], parse);
    }
  }

  /**
   * The set filled by `for rawAlert in rawAlerts { if let alert = ... { insert(alert) } }`
   * after the loop has seen `raws`.
   */
  function ParseAlertSet<T(!new)>(raws: seq<RawDict>, parse: RawDict -> Option<T>): set<T> {
    if raws == [] then {}
    else
      var last := raws[|raws| - 1];
      var seen := ParseAlertSet(raws[..|raws| - 1], parse);
      match parse(last)
      case Some(a) => seen + {a}
      case None => seen
  }

  /** An alert is in the decoded set exactly when some entry parses to it. */
  lemma {:induction false} ParseAlertSetMembership<T(!new)>(raws: seq<RawDict>, parse: RawDict -> Option<T>, a: T)
    ensures a in ParseAlertSet(raws, parse) <==> exists i :: 0 <= i < |raws| && parse(raws[i]) == Some(a)
  {
    if raws != [] {
      var front := raws[..|raws| - 1];
      ParseAlertSetMembership(front, parse, a);
      if a in ParseAlertSet(front, parse) {
        var i :| 0 <= i < |front| && parse(front[i]) == Some(a);
        assert parse(raws[i]) == Some(a);
      }
      if exists i :: 0 <= i < |raws| && parse(raws[i]) == Some(a) {
        var i :| 0 <= i < |raws| && parse(raws[i]) == Some(a);
        if i < |raws| - 1 {
          assert parse(front[i]) == Some(a);
        }
      }
    }
  }

  // ---------------------------------------------------------------------------
  // Decoding

  /** The basal schedule of a version 1 document, which kept it inside `podState`. */
  function LegacyBasalSchedule(raw: RawDict, env: Collaborators): Option<BasalSchedule> {
    match AsDict(raw, PodStateKey)
    case None => None
    case Some(podStateRaw) =>
      match AsDict(podStateRaw, BasalScheduleKey)
      case None => None
      case Some(rawBasalSchedule) => env.basalSchedule.parse(rawBasalSchedule)
  }

  /** The basal schedule of a document of any other version, kept at the top level. */
  function TopLevelBasalSchedule(raw: RawDict, env: Collaborators): Option<BasalSchedule> {
    match AsDict(raw, BasalScheduleKey)
    case None => None
    case Some(rawBasalSchedule) => env.basalSchedule.parse(rawBasalSchedule)
  }

  /** The pod state of a document: absent when the key is missing or does not parse. */
  function DecodedPodState(raw: RawDict, env: Collaborators): Option<PodState> {
    match AsDict(raw, PodStateKey)
    case None => None
    case Some(podStateRaw) => env.podState.parse(podStateRaw)
  }

  /** The time zone of a document, or the current fixed zone when it has none usable. */
  function DecodedTimeZone(raw: RawDict, env: Collaborators): TimeZone {
    match AsInt(raw, TimeZoneKey)
    case None => env.currentFixed
    case Some(seconds) => env.timeZoneFromSeconds(seconds).GetOr(env.currentFixed)
  }

  /** The insulin type a document names, if it names one that parses. */
  function DecodedInsulinType(raw: RawDict, env: Collaborators): Option<InsulinType> {
    match AsInt(raw, InsulinTypeKey)
    case None => None
    case Some(rawInsulinType) => env.insulinType.parse(rawInsulinType)
  }

  /**
   * The ids handed to the memberwise initialiser: the stored pair when both are stored,
   * else the legacy constant controller id and the pod's address (absent without a pod).
   */
  function StoredOrLegacyIds(raw: RawDict, podState: Option<PodState>): (Option<UInt32>, Option<UInt32>) {
    var controllerId := AsUInt32(raw, ControllerIdKey);
    var podId := AsUInt32(raw, PodIdKey);
    if controllerId.None? || podId.None? then
      (Some(Ids.CONTROLLER_ID), if podState.Some? then Some(podState.value.address) else None)
    else
      (controllerId, podId)
  }

  /** `activeAlerts` or `alertsWithPendingAcknowledgment` of a document. */
  function DecodedAlerts(raw: RawDict, key: Key, env: Collaborators): set<PumpManagerAlert> {
    match AsDictList(raw, key)
    case None => {}
    case Some(rawAlerts) => ParseAlertSet(rawAlerts, env.alert.parse)
  }

  /** `unstoredDoses` of a document. */
  function DecodedDoses(raw: RawDict, env: Collaborators): seq<UnfinalizedDose> {
    match AsDictList(raw, UnstoredDosesKey)
    case None => []
    case Some(rawUnstoredDoses) => CompactMap(rawUnstoredDoses, env.dose.parse)
  }

  /** `PendingCommand(rawValue:)` of the stored pending command, if any. */
  function DecodedPendingCommand(raw: RawDict, env: Collaborators): Option<PendingCommand> {
    match AsDict(raw, PendingCommandKey)
    case None => None
    case Some(rawPendingCommand) => env.pendingCommand.parse(rawPendingCommand)
  }

  /**
   * The fields `init?(rawValue:)` sets after the memberwise initialiser, each from its
   * key or, for a document that lacks it, from a backward-compatible default.
   */
  function RestoreFields(s: PumpManagerState, raw: RawDict, env: Collaborators): PumpManagerState {
    s.(
      isOnboarded := AsBool(raw, IsOnboardedKey).GetOr(true),
      unstoredDoses := DecodedDoses(raw, env),
      confirmationBeeps := AsBool(raw, ConfirmationBeepsKey).GetOr(AsBool(raw, BolusBeepsKey).GetOr(false)),
      scheduledExpirationReminderOffset := AsDouble(raw, ScheduledExpirationReminderOffsetKey),
      defaultExpirationReminderOffset :=
        AsDouble(raw, DefaultExpirationReminderOffsetKey).GetOr(env.defaultExpirationReminderOffset),
      lowReservoirReminderValue := AsDouble(raw, LowReservoirReminderValueKey).GetOr(env.defaultLowReservoirReminder),
      podAttachmentConfirmed := AsBool(raw, PodAttachmentConfirmedKey).GetOr(false),
      initialConfigurationCompleted := AsBool(raw, InitialConfigurationCompletedKey).GetOr(true),
      acknowledgedTimeOffsetAlert := AsBool(raw, AcknowledgedTimeOffsetAlertKey).GetOr(false),
      pendingCommand := DecodedPendingCommand(raw, env),
      activeAlerts := DecodedAlerts(raw, ActiveAlertsKey, env),
      alertsWithPendingAcknowledgment := DecodedAlerts(raw, AlertsWithPendingAcknowledgmentKey, env))
  }

  /**
   * `init?(rawValue:)`. `freshControllerId` stands for `createControllerId()`, used
   * only when neither the document nor the legacy fallback supplies both ids.
   */
  function Decode(raw: RawDict, env: Collaborators, freshControllerId: UInt32): (r: Option<PumpManagerState>)
    requires freshControllerId < UInt32Max
    // a document without an Int version is refused
    ensures AsInt(raw, VersionKey).None? ==> r.None?
    // where the basal schedule is taken from, and the only other way to fail
    ensures AsInt(raw, VersionKey) == Some(1) ==>
              (r.Some? <==> LegacyBasalSchedule(raw, env).Some?)
              && (r.Some? ==> r.value.basalSchedule == LegacyBasalSchedule(raw, env).value)
    ensures AsInt(raw, VersionKey).Some? && AsInt(raw, VersionKey) != Some(1) ==>
              (r.Some? <==> TopLevelBasalSchedule(raw, env).Some?)
              && (r.Some? ==> r.value.basalSchedule == TopLevelBasalSchedule(raw, env).value)
    // a decoded state has no operation in flight
    ensures r.Some? ==> r.value.suspendEngageState == r.value.bolusEngageState
                        == r.value.tempBasalEngageState == Stable
    ensures r.Some? ==> r.value.lastPumpDataReportDate.None?
  {
    match AsInt(raw, VersionKey)
    case None => None
    case Some(version) =>
      var basalSchedule :=
        if version == 1 then LegacyBasalSchedule(raw, env) else TopLevelBasalSchedule(raw, env);
      if basalSchedule.None? then None
      else
        var podState := DecodedPodState(raw, env);
        var (controllerId, podId) := StoredOrLegacyIds(raw, podState);
        var s := Init(podState, DecodedTimeZone(raw, env), basalSchedule.value, controllerId, podId,
                      Some(DecodedInsulinType(raw, env).GetOr(env.novolog)), freshControllerId, env);
        Some(RestoreFields(s, raw, env))
  }

  /**
   * The ids of a decoded state: the stored pair when both are stored; otherwise the
   * constant controller id and the pod's address; and with no pod either, a fresh pair
   * whose pod id is the controller id plus one.
   */
  lemma DecodeIds(raw: RawDict, env: Collaborators, freshControllerId: UInt32)
    requires freshControllerId < UInt32Max
    requires Decode(raw, env, freshControllerId).Some?
    ensures var s := Decode(raw, env, freshControllerId).value;
      && (AsUInt32(raw, ControllerIdKey).Some? && AsUInt32(raw, PodIdKey).Some? ==>
            s.controllerId == AsUInt32(raw, ControllerIdKey).value && s.podId == AsUInt32(raw, PodIdKey).value)
      && (AsUInt32(raw, ControllerIdKey).None? || AsUInt32(raw, PodIdKey).None? ==>
            if DecodedPodState(raw, env).Some? then
              s.controllerId == Ids.CONTROLLER_ID && s.podId == DecodedPodState(raw, env).value.address
            else
              s.controllerId == freshControllerId && s.podId == freshControllerId + 1)
  {
  }

  /**
   * Backward-compatible defaults: a key that is missing, or holds a value of another
   * type, gives the default; the legacy `bolusBeeps` key stands in for
   * `confirmationBeeps`, and the insulin type falls back to Novolog.
   */
  lemma DecodeDefaults(raw: RawDict, env: Collaborators, freshControllerId: UInt32)
    requires freshControllerId < UInt32Max
    requires Decode(raw, env, freshControllerId).Some?
    ensures var s := Decode(raw, env, freshControllerId).value;
      && (AsBool(raw, IsOnboardedKey).None? ==> s.isOnboarded)
      && (AsBool(raw, InitialConfigurationCompletedKey).None? ==> s.initialConfigurationCompleted)
      && (AsBool(raw, PodAttachmentConfirmedKey).None? ==> !s.podAttachmentConfirmed)
      && (AsBool(raw, AcknowledgedTimeOffsetAlertKey).None? ==> !s.acknowledgedTimeOffsetAlert)
      && (AsBool(raw, ConfirmationBeepsKey).None? ==> s.confirmationBeeps == AsBool(raw, BolusBeepsKey).GetOr(false))
      && (AsBool(raw, ConfirmationBeepsKey).Some? ==> s.confirmationBeeps == AsBool(raw, ConfirmationBeepsKey).value)
      && (AsDouble(raw, ScheduledExpirationReminderOffsetKey).None? ==> s.scheduledExpirationReminderOffset.None?)
      && (AsDouble(raw, LowReservoirReminderValueKey).None? ==>
            s.lowReservoirReminderValue == env.defaultLowReservoirReminder)
      && (AsDouble(raw, DefaultExpirationReminderOffsetKey).None? ==>
            s.defaultExpirationReminderOffset == env.defaultExpirationReminderOffset)
      && (AsInt(raw, TimeZoneKey).None? ==> s.timeZone == env.currentFixed)
      && (AsInt(raw, TimeZoneKey).Some? && env.timeZoneFromSeconds(AsInt(raw, TimeZoneKey).value).None? ==>
            s.timeZone == env.currentFixed)
      && (AsDict(raw, PendingCommandKey).None? ==> s.pendingCommand.None?)
      && s.insulinType == Some(DecodedInsulinType(raw, env).GetOr(env.novolog))
      && (AsInt(raw, InsulinTypeKey).None? ==> s.insulinType == Some(env.novolog))
  {
  }

  /**
   * `unstoredDoses`: the stored entries that parse, in stored order, none dropped that
   * parses; no doses at all when the key does not hold an array of dictionaries.
   */
  lemma DecodeKeepsParseableDoses(raw: RawDict, env: Collaborators, freshControllerId: UInt32,
                                  d: UnfinalizedDose)
    requires freshControllerId < UInt32Max
    requires Decode(raw, env, freshControllerId).Some?
    ensures var s := Decode(raw, env, freshControllerId).value;
      && (AsDictList(raw, UnstoredDosesKey).None? ==> s.unstoredDoses == [])
      && (AsDictList(raw, UnstoredDosesKey).Some? ==>
            var doses := AsDictList(raw, UnstoredDosesKey).value;
            && s.unstoredDoses == CompactMap(doses, env.dose.parse)
            && (d in s.unstoredDoses <==> exists i :: 0 <= i < |doses| && env.dose.parse(doses[i]) == Some(d)))
  {
    if AsDictList(raw, UnstoredDosesKey).Some? {
      CompactMapMembership(AsDictList(raw, UnstoredDosesKey).value, env.dose.parse, d);
    }
  }

  /**
   * `activeAlerts` and `alertsWithPendingAcknowledgment`: an alert is decoded exactly
   * when some stored entry parses to it; the set is empty when the key does not hold
   * an array of dictionaries.
   */
  lemma DecodeKeepsParseableAlerts(raw: RawDict, env: Collaborators, freshControllerId: UInt32,
                                   key: Key, a: PumpManagerAlert)
    requires freshControllerId < UInt32Max
    requires Decode(raw, env, freshControllerId).Some?
    requires key == ActiveAlertsKey || key == AlertsWithPendingAcknowledgmentKey
    ensures var s := Decode(raw, env, freshControllerId).value;
      var decoded := if key == ActiveAlertsKey then s.activeAlerts else s.alertsWithPendingAcknowledgment;
      && (AsDictList(raw, key).None? ==> decoded == {})
      && (AsDictList(raw, key).Some? ==>
            var alerts := AsDictList(raw, key).value;
            a in decoded <==> exists i :: 0 <= i < |alerts| && env.alert.parse(alerts[i]) == Some(a))
  {
    if AsDictList(raw, key).Some? {
      ParseAlertSetMembership(AsDictList(raw, key).value, env.alert.parse, a);
    }
  }

  /**
   * The pod queries of a decoded state read the decoded pod state: an active pod, a
   * set-up pod and a reservoir level exactly when the stored pod state parses to one
   * that has them.
   */
  lemma DecodedPodQueries(raw: RawDict, env: Collaborators, freshControllerId: UInt32)
    requires freshControllerId < UInt32Max
    requires Decode(raw, env, freshControllerId).Some?
    ensures var s := Decode(raw, env, freshControllerId).value;
      var p := DecodedPodState(raw, env);
      && s.podState == p
      && (s.HasActivePod() <==> p.Some? && p.value.isActive)
      && (s.HasSetupPod() <==> p.Some? && p.value.isSetupComplete)
      && (s.LastReservoirLevel(env).Some? <==>
            p.Some? && p.value.lastInsulinMeasurements.Some?
            && p.value.lastInsulinMeasurements.value.reservoirLevel.Some?)
  {
  }

  /**
   * A document without a usable pod state decodes, if at all, to a state with no
   * paired pod: no active pod, no set-up pod and no reservoir reading.
   */
  lemma DecodeWithoutPod(raw: RawDict, env: Collaborators, freshControllerId: UInt32)
    requires freshControllerId < UInt32Max
    requires Decode(raw, env, freshControllerId).Some?
    requires DecodedPodState(raw, env).None?
    ensures var s := Decode(raw, env, freshControllerId).value;
      !s.HasActivePod() && !s.HasSetupPod() && s.LastReservoirLevel(env).None?
  {
  }

  /**
   * `init?(rawValue:)` as the Swift code runs it: guards, reassigned local ids, and
   * the two alert sets filled by loops.
   */
  method DecodeState(raw: RawDict, env: Collaborators, freshControllerId: UInt32)
    returns (r: Option<PumpManagerState>)
    requires freshControllerId < UInt32Max
    ensures r == Decode(raw, env, freshControllerId)
  {
    var version := AsInt(raw, VersionKey);
    if version.None? {
      return None;
    }

    var basalSchedule: BasalSchedule;
    if version.value == 1 {
      // migrate: the basal schedule moved out of the pod state
      var podStateRaw := AsDict(raw, PodStateKey);
      var rawBasalSchedule := if podStateRaw.Some? then AsDict(podStateRaw.value, BasalScheduleKey) else None;
      var migrateSchedule := if rawBasalSchedule.Some? then env.basalSchedule.parse(rawBasalSchedule.value) else None;
      if migrateSchedule.None? {
        return None;
      }
      basalSchedule := migrateSchedule.value;
    } else {
      var rawBasalSchedule := AsDict(raw, BasalScheduleKey);
      var schedule := if rawBasalSchedule.Some? then env.basalSchedule.parse(rawBasalSchedule.value) else None;
      if schedule.None? {
        return None;
      }
      basalSchedule := schedule.value;
    }

    var podState: Option<PodState> := None;
    var podStateRaw := AsDict(raw, PodStateKey);
    if podStateRaw.Some? {
      podState := env.podState.parse(podStateRaw.value);
    }
    assert podState == DecodedPodState(raw, env);

    var timeZone := env.currentFixed;
    var timeZoneSeconds := AsInt(raw, TimeZoneKey);
    if timeZoneSeconds.Some? && env.timeZoneFromSeconds(timeZoneSeconds.value).Some? {
      timeZone := env.timeZoneFromSeconds(timeZoneSeconds.value).value;
    }
    assert timeZone == DecodedTimeZone(raw, env);

    var controllerId := AsUInt32(raw, ControllerIdKey);
    var podId := AsUInt32(raw, PodIdKey);
    if controllerId.None? || podId.None? {
      // keep the constant controller id until this pod is deactivated
      controllerId := Some(Ids.CONTROLLER_ID);
      podId := if podState.Some? then Some(podState.value.address) else None;
    }
    assert (controllerId, podId) == StoredOrLegacyIds(raw, podState);

    var insulinType: Option<InsulinType> := None;
    var rawInsulinType := AsInt(raw, InsulinTypeKey);
    if rawInsulinType.Some? {
      insulinType := env.insulinType.parse(rawInsulinType.value);
    }
    assert insulinType == DecodedInsulinType(raw, env);

    var s := Init(podState, timeZone, basalSchedule, controllerId, podId,
                  Some(insulinType.GetOr(env.novolog)), freshControllerId, env);

    var restored := RestoreFieldsInto(s, raw, env);
    return Some(restored);
  }

  /** The assignments of `init?(rawValue:)` after the memberwise initialiser. */
  method RestoreFieldsInto(s: PumpManagerState, raw: RawDict, env: Collaborators) returns (r: PumpManagerState)
    ensures r == RestoreFields(s, raw, env)
  {
    var isOnboarded := AsBool(raw, IsOnboardedKey).GetOr(true);  // backward compatibility
    var unstoredDoses: seq<UnfinalizedDose> := [];
    var rawUnstoredDoses := AsDictList(raw, UnstoredDosesKey);
    if rawUnstoredDoses.Some? {
      unstoredDoses := CompactMap(rawUnstoredDoses.value, env.dose.parse);
    }
    var confirmationBeeps := AsBool(raw, ConfirmationBeepsKey).GetOr(AsBool(raw, BolusBeepsKey).GetOr(false));
    var scheduledExpirationReminderOffset := AsDouble(raw, ScheduledExpirationReminderOffsetKey);
    var defaultExpirationReminderOffset :=
      AsDouble(raw, DefaultExpirationReminderOffsetKey).GetOr(env.defaultExpirationReminderOffset);
    var lowReservoirReminderValue := AsDouble(raw, LowReservoirReminderValueKey).GetOr(env.defaultLowReservoirReminder);
    var podAttachmentConfirmed := AsBool(raw, PodAttachmentConfirmedKey).GetOr(false);
    var initialConfigurationCompleted := AsBool(raw, InitialConfigurationCompletedKey).GetOr(true);
    var acknowledgedTimeOffsetAlert := AsBool(raw, AcknowledgedTimeOffsetAlertKey).GetOr(false);
    var pendingCommand: Option<PendingCommand> := None;
    var rawPendingCommand := AsDict(raw, PendingCommandKey);
    if rawPendingCommand.Some? {
      pendingCommand := env.pendingCommand.parse(rawPendingCommand.value);
    }
    var activeAlerts := ParseAlertsInto(AsDictList(raw, ActiveAlertsKey), env);
    var alertsWithPendingAcknowledgment := ParseAlertsInto(AsDictList(raw, AlertsWithPendingAcknowledgmentKey), env);

    r := s.(
      isOnboarded := isOnboarded,
      unstoredDoses := unstoredDoses,
      confirmationBeeps := confirmationBeeps,
      scheduledExpirationReminderOffset := scheduledExpirationReminderOffset,
      defaultExpirationReminderOffset := defaultExpirationReminderOffset,
      lowReservoirReminderValue := lowReservoirReminderValue,
      podAttachmentConfirmed := podAttachmentConfirmed,
      initialConfigurationCompleted := initialConfigurationCompleted,
      acknowledgedTimeOffsetAlert := acknowledgedTimeOffsetAlert,
      pendingCommand := pendingCommand,
      activeAlerts := activeAlerts,
      alertsWithPendingAcknowledgment := alertsWithPendingAcknowledgment);
  }

  /** The loop that inserts every alert that parses into an initially empty set. */
  method ParseAlertsInto(rawAlerts: Option<seq<RawDict>>, env: Collaborators) returns (alerts: set<PumpManagerAlert>)
    ensures rawAlerts.None? ==> alerts == {}
    ensures rawAlerts.Some? ==> alerts == ParseAlertSet(rawAlerts.value, env.alert.parse)
  {
    alerts := {};
    if rawAlerts.Some? {
      var raws := rawAlerts.value;
      var i := 0;
      while i < |raws|
        invariant 0 <= i <= |raws|
        invariant alerts == ParseAlertSet(raws[..i], env.alert.parse)
      {
        assert raws[..i + 1][..i] == raws[..i];
        var alert := env.alert.parse(raws[i]);
        if alert.Some? {
          alerts := alerts + {alert.value};
        }
        i := i + 1;
      }
      assert raws[..|raws|] == raws;
    }
  }

  // ---------------------------------------------------------------------------
  // Encoding

  /** `xs.map { $0.rawValue }`: the serialised entries, in order. */
  function Serialised<T(!new)>(xs: seq<T>, encode: T -> RawDict): (raws: seq<RawDict>)
    ensures |raws| == |xs|
    ensures forall i :: 0 <= i < |xs| ==> raws[i] == encode(xs[i])
  {
    seq(|xs|, i requires 0 <= i < |xs| => encode(xs[i]))
  }

  /** The same entries stored as an array of dictionaries. */
  function AsRawList(raws: seq<RawDict>): (items: RawVal)
    ensures items.RList? && |items.items| == |raws| && AllDicts(items.items)
    ensures forall i :: 0 <= i < |raws| ==> items.items[i] == RDict(raws[i])
  {
    RList(seq(|raws|, i requires 0 <= i < |raws| => RDict(raws[i])))
  }

  /** Casting a stored array of dictionaries back gives the dictionaries. */
  lemma AsDictListOfRawList(raw: RawDict, k: Key, raws: seq<RawDict>)
    requires k in raw && raw[k] == AsRawList(raws)
    ensures AsDictList(raw, k) == Some(raws)
  {
    var r := AsDictList(raw, k).value;
    assert |r| == |raws|;
    forall i | 0 <= i < |raws| ensures r[i] == raws[i] {
      assert raw[k].items[i] == RDict(raws[i]);
    }
    assert r == raws;
  }

  /** `order` lists the elements of `s`, each exactly once (the iteration order of a Swift `Set`). */
  ghost predicate Enumerates<T(!new)>(order: seq<T>, s: set<T>) {
    |order| == |s| && forall x :: x in order <==> x in s
  }

  /** The dictionary literal `rawValue` starts from. */
  function Literal(s: PumpManagerState, env: Collaborators,
                   activeOrder: seq<PumpManagerAlert>, pendingOrder: seq<PumpManagerAlert>): RawDict
  {
    map[
      VersionKey := RInt(Version),
      IsOnboardedKey := RBool(s.isOnboarded),
      TimeZoneKey := RInt(env.secondsFromGMT(s.timeZone)),
      BasalScheduleKey := RDict(env.basalSchedule.encode(s.basalSchedule)),
      UnstoredDosesKey := AsRawList(Serialised(s.unstoredDoses, env.dose.encode)),
      ConfirmationBeepsKey := RBool(s.confirmationBeeps),
      ActiveAlertsKey := AsRawList(Serialised(activeOrder, env.alert.encode)),
      PodAttachmentConfirmedKey := RBool(s.podAttachmentConfirmed),
      AcknowledgedTimeOffsetAlertKey := RBool(s.acknowledgedTimeOffsetAlert),
      AlertsWithPendingAcknowledgmentKey := AsRawList(Serialised(pendingOrder, env.alert.encode)),
      InitialConfigurationCompletedKey := RBool(s.initialConfigurationCompleted)
    ]
  }

  /** The keys `rawValue` assigns one by one after the literal. */
  const LateKeys: set<Key> := {
    InsulinTypeKey, PodStateKey, ControllerIdKey, PodIdKey, ScheduledExpirationReminderOffsetKey,
    DefaultExpirationReminderOffsetKey, LowReservoirReminderValueKey, PendingCommandKey}

  /** The assignments `rawValue` makes after the literal, in order; a `nil` optional leaves its key out. */
  function LateAssignments(value: RawDict, s: PumpManagerState, env: Collaborators): RawDict {
    var value := Assign(value, InsulinTypeKey,
      if s.insulinType.Some? then Some(RInt(env.insulinType.encode(s.insulinType.value))) else None);
    var value := Assign(value, PodStateKey,
      if s.podState.Some? then Some(RDict(env.podState.encode(s.podState.value))) else None);
    var value := value[ControllerIdKey := RUInt32(s.controllerId)];
    var value := value[PodIdKey := RUInt32(s.podId)];
    var value := Assign(value, ScheduledExpirationReminderOffsetKey,
      if s.scheduledExpirationReminderOffset.Some? then Some(RDouble(s.scheduledExpirationReminderOffset.value)) else None);
    var value := value[DefaultExpirationReminderOffsetKey := RDouble(s.defaultExpirationReminderOffset)];
    var value := value[LowReservoirReminderValueKey := RDouble(s.lowReservoirReminderValue)];
    Assign(value, PendingCommandKey,
      if s.pendingCommand.Some? then Some(RDict(env.pendingCommand.encode(s.pendingCommand.value))) else None)
  }

  /** The late assignments touch only their own keys. */
  lemma LateAssignmentsKeepOtherKeys(value: RawDict, s: PumpManagerState, env: Collaborators, k: Key)
    requires k !in LateKeys
    ensures k in LateAssignments(value, s, env) <==> k in value
    ensures k in value ==> LateAssignments(value, s, env)[k] == value[k]
  {
  }

  /** `rawValue`, given the order in which the two alert sets are iterated. */
  function Encode(s: PumpManagerState, env: Collaborators,
                  activeOrder: seq<PumpManagerAlert>, pendingOrder: seq<PumpManagerAlert>): RawDict
  {
    LateAssignments(Literal(s, env, activeOrder, pendingOrder), s, env)
  }

  /** `raw` is what `rawValue` produces for `s` under some iteration order of its alert sets. */
  ghost predicate IsEncodingOf(raw: RawDict, s: PumpManagerState, env: Collaborators) {
    exists activeOrder, pendingOrder ::
      && Enumerates(activeOrder, s.activeAlerts)
      && Enumerates(pendingOrder, s.alertsWithPendingAcknowledgment)
      && raw == Encode(s, env, activeOrder, pendingOrder)
  }

  /**
   * `rawValue` as the Swift code runs it: a dictionary literal, then one key at a time.
   * `activeOrder` and `pendingOrder` are the orders in which `Set.map` visits the two
   * alert sets, which Swift leaves unspecified.
   */
  method EncodeState(s: PumpManagerState, env: Collaborators,
                     activeOrder: seq<PumpManagerAlert>, pendingOrder: seq<PumpManagerAlert>)
    returns (raw: RawDict)
    requires Enumerates(activeOrder, s.activeAlerts)
    requires Enumerates(pendingOrder, s.alertsWithPendingAcknowledgment)
    ensures raw == Encode(s, env, activeOrder, pendingOrder)
    ensures IsEncodingOf(raw, s, env)
  {
    raw := map[
      VersionKey := RInt(Version),
      IsOnboardedKey := RBool(s.isOnboarded),
      TimeZoneKey := RInt(env.secondsFromGMT(s.timeZone)),
      BasalScheduleKey := RDict(env.basalSchedule.encode(s.basalSchedule)),
      UnstoredDosesKey := AsRawList(Serialised(s.unstoredDoses, env.dose.encode)),
      ConfirmationBeepsKey := RBool(s.confirmationBeeps),
      ActiveAlertsKey := AsRawList(Serialised(activeOrder, env.alert.encode)),
      PodAttachmentConfirmedKey := RBool(s.podAttachmentConfirmed),
      AcknowledgedTimeOffsetAlertKey := RBool(s.acknowledgedTimeOffsetAlert),
      AlertsWithPendingAcknowledgmentKey := AsRawList(Serialised(pendingOrder, env.alert.encode)),
      InitialConfigurationCompletedKey := RBool(s.initialConfigurationCompleted)
    ];
    raw := Assign(raw, InsulinTypeKey,
      if s.insulinType.Some? then Some(RInt(env.insulinType.encode(s.insulinType.value))) else None);
    raw := Assign(raw, PodStateKey,
      if s.podState.Some? then Some(RDict(env.podState.encode(s.podState.value))) else None);
    raw := raw[ControllerIdKey := RUInt32(s.controllerId)];
    raw := raw[PodIdKey := RUInt32(s.podId)];
    raw := Assign(raw, ScheduledExpirationReminderOffsetKey,
      if s.scheduledExpirationReminderOffset.Some? then Some(RDouble(s.scheduledExpirationReminderOffset.value)) else None);
    raw := raw[DefaultExpirationReminderOffsetKey := RDouble(s.defaultExpirationReminderOffset)];
    raw := raw[LowReservoirReminderValueKey := RDouble(s.lowReservoirReminderValue)];
    raw := Assign(raw, PendingCommandKey,
      if s.pendingCommand.Some? then Some(RDict(env.pendingCommand.encode(s.pendingCommand.value))) else None);
    assert raw == Encode(s, env, activeOrder, pendingOrder);
  }

  // ---------------------------------------------------------------------------
  // What each key of an encoded document holds

  /** The version, onboarding and time-zone keys. */
  ghost predicate StoresScalars(raw: RawDict, s: PumpManagerState, env: Collaborators) {
    && AsInt(raw, VersionKey) == Some(Version)
    && AsBool(raw, IsOnboardedKey) == Some(s.isOnboarded)
    && AsInt(raw, TimeZoneKey) == Some(env.secondsFromGMT(s.timeZone))
  }

  /** The flag keys hold the state's flags. */
  ghost predicate StoresFlags(raw: RawDict, s: PumpManagerState) {
    && AsBool(raw, ConfirmationBeepsKey) == Some(s.confirmationBeeps)
    && AsBool(raw, PodAttachmentConfirmedKey) == Some(s.podAttachmentConfirmed)
    && AsBool(raw, AcknowledgedTimeOffsetAlertKey) == Some(s.acknowledgedTimeOffsetAlert)
    && AsBool(raw, InitialConfigurationCompletedKey) == Some(s.initialConfigurationCompleted)
  }

  /** The id keys and the reminder values. */
  ghost predicate StoresIdsAndReminders(raw: RawDict, s: PumpManagerState) {
    && AsUInt32(raw, ControllerIdKey) == Some(s.controllerId)
    && AsUInt32(raw, PodIdKey) == Some(s.podId)
    && AsDouble(raw, DefaultExpirationReminderOffsetKey) == Some(s.defaultExpirationReminderOffset)
    && AsDouble(raw, LowReservoirReminderValueKey) == Some(s.lowReservoirReminderValue)
    && AsDouble(raw, ScheduledExpirationReminderOffsetKey) == s.scheduledExpirationReminderOffset
  }

  /** The schedule, the doses in order and the alerts in the given iteration orders. */
  ghost predicate StoresCollections(raw: RawDict, s: PumpManagerState, env: Collaborators,
                                    activeOrder: seq<PumpManagerAlert>, pendingOrder: seq<PumpManagerAlert>) {
    && AsDict(raw, BasalScheduleKey) == Some(env.basalSchedule.encode(s.basalSchedule))
    && AsDictList(raw, UnstoredDosesKey) == Some(Serialised(s.unstoredDoses, env.dose.encode))
    && AsDictList(raw, ActiveAlertsKey) == Some(Serialised(activeOrder, env.alert.encode))
    && AsDictList(raw, AlertsWithPendingAcknowledgmentKey) == Some(Serialised(pendingOrder, env.alert.encode))
  }

  /** The optional values: present exactly when set. */
  ghost predicate StoresOptionals(raw: RawDict, s: PumpManagerState, env: Collaborators) {
    && AsInt(raw, InsulinTypeKey) == (if s.insulinType.Some? then Some(env.insulinType.encode(s.insulinType.value)) else None)
    && AsDict(raw, PodStateKey) == (if s.podState.Some? then Some(env.podState.encode(s.podState.value)) else None)
    && AsDict(raw, PendingCommandKey) ==
         (if s.pendingCommand.Some? then Some(env.pendingCommand.encode(s.pendingCommand.value)) else None)
  }

  lemma EncodeStoresScalars(s: PumpManagerState, env: Collaborators,
                            activeOrder: seq<PumpManagerAlert>, pendingOrder: seq<PumpManagerAlert>)
    ensures StoresScalars(Encode(s, env, activeOrder, pendingOrder), s, env)
  {
    var literal := Literal(s, env, activeOrder, pendingOrder);
    var raw := Encode(s, env, activeOrder, pendingOrder);
    LateAssignmentsKeepOtherKeys(literal, s, env, VersionKey);
    assert raw[VersionKey] == RInt(Version);
    LateAssignmentsKeepOtherKeys(literal, s, env, IsOnboardedKey);
    assert raw[IsOnboardedKey] == RBool(s.isOnboarded);
    LateAssignmentsKeepOtherKeys(literal, s, env, TimeZoneKey);
    assert raw[TimeZoneKey] == RInt(env.secondsFromGMT(s.timeZone));
  }

  lemma EncodeStoresFlags(s: PumpManagerState, env: Collaborators,
                          activeOrder: seq<PumpManagerAlert>, pendingOrder: seq<PumpManagerAlert>)
    ensures StoresFlags(Encode(s, env, activeOrder, pendingOrder), s)
  {
    var literal := Literal(s, env, activeOrder, pendingOrder);
    var raw := Encode(s, env, activeOrder, pendingOrder);
    LateAssignmentsKeepOtherKeys(literal, s, env, ConfirmationBeepsKey);
    assert raw[ConfirmationBeepsKey] == RBool(s.confirmationBeeps);
    LateAssignmentsKeepOtherKeys(literal, s, env, PodAttachmentConfirmedKey);
    assert raw[PodAttachmentConfirmedKey] == RBool(s.podAttachmentConfirmed);
    LateAssignmentsKeepOtherKeys(literal, s, env, AcknowledgedTimeOffsetAlertKey);
    assert raw[AcknowledgedTimeOffsetAlertKey] == RBool(s.acknowledgedTimeOffsetAlert);
    LateAssignmentsKeepOtherKeys(literal, s, env, InitialConfigurationCompletedKey);
    assert raw[InitialConfigurationCompletedKey] == RBool(s.initialConfigurationCompleted);
  }

  lemma EncodeStoresIdsAndReminders(s: PumpManagerState, env: Collaborators,
                                    activeOrder: seq<PumpManagerAlert>, pendingOrder: seq<PumpManagerAlert>)
    ensures StoresIdsAndReminders(Encode(s, env, activeOrder, pendingOrder), s)
  {
  }

  lemma EncodeStoresCollections(s: PumpManagerState, env: Collaborators,
                                activeOrder: seq<PumpManagerAlert>, pendingOrder: seq<PumpManagerAlert>)
    ensures StoresCollections(Encode(s, env, activeOrder, pendingOrder), s, env, activeOrder, pendingOrder)
  {
    var literal := Literal(s, env, activeOrder, pendingOrder);
    var raw := Encode(s, env, activeOrder, pendingOrder);
    LateAssignmentsKeepOtherKeys(literal, s, env, BasalScheduleKey);
    assert raw[BasalScheduleKey] == RDict(env.basalSchedule.encode(s.basalSchedule));
    LateAssignmentsKeepOtherKeys(literal, s, env, UnstoredDosesKey);
    assert raw[UnstoredDosesKey] == AsRawList(Serialised(s.unstoredDoses, env.dose.encode));
    LateAssignmentsKeepOtherKeys(literal, s, env, ActiveAlertsKey);
    assert raw[ActiveAlertsKey] == AsRawList(Serialised(activeOrder, env.alert.encode));
    LateAssignmentsKeepOtherKeys(literal, s, env, AlertsWithPendingAcknowledgmentKey);
    assert raw[AlertsWithPendingAcknowledgmentKey] == AsRawList(Serialised(pendingOrder, env.alert.encode));
    AsDictListOfRawList(raw, UnstoredDosesKey, Serialised(s.unstoredDoses, env.dose.encode));
    AsDictListOfRawList(raw, ActiveAlertsKey, Serialised(activeOrder, env.alert.encode));
    AsDictListOfRawList(raw, AlertsWithPendingAcknowledgmentKey, Serialised(pendingOrder, env.alert.encode));
  }

  lemma EncodeStoresOptionals(s: PumpManagerState, env: Collaborators,
                              activeOrder: seq<PumpManagerAlert>, pendingOrder: seq<PumpManagerAlert>)
    ensures StoresOptionals(Encode(s, env, activeOrder, pendingOrder), s, env)
  {
  }

  // ---------------------------------------------------------------------------
  // Round trip

  /** Decoding a list of encoded values gives the list back. */
  lemma {:induction false} DecodeSerialisedList<T(!new)>(xs: seq<T>, c: Codec<RawDict, T>)
    requires c.RoundTrips()
    ensures CompactMap(Serialised(xs, c.encode), c.parse) == xs
  {
    if xs != [] {
      assert Serialised(xs, c.encode)[1..] == Serialised(xs[1..], c.encode);
      DecodeSerialisedList(xs[1..], c);
    }
  }

  /** Decoding an enumeration of an encoded set gives the set back. */
  lemma DecodeSerialisedSet<T(!new)>(order: seq<T>, s: set<T>, c: Codec<RawDict, T>)
    requires c.RoundTrips()
    requires Enumerates(order, s)
    ensures ParseAlertSet(Serialised(order, c.encode), c.parse) == s
  {
    var raws := Serialised(order, c.encode);
    forall a | true
      ensures a in ParseAlertSet(raws, c.parse) <==> a in s
    {
      ParseAlertSetMembership(raws, c.parse, a);
      if a in s {
        var i :| 0 <= i < |order| && order[i] == a;
        assert c.parse(raws[i]) == Some(a);
      }
    }
  }

  /** The basal schedule, pod state, insulin type and ids of a document holding those of `s`. */
  lemma DecodeStoredParts(raw: RawDict, s: PumpManagerState, env: Collaborators,
                          activeOrder: seq<PumpManagerAlert>, pendingOrder: seq<PumpManagerAlert>)
    requires env.CodecsRoundTrip()
    requires StoresScalars(raw, s, env) && StoresIdsAndReminders(raw, s)
    requires StoresCollections(raw, s, env, activeOrder, pendingOrder) && StoresOptionals(raw, s, env)
    ensures TopLevelBasalSchedule(raw, env) == Some(s.basalSchedule)
    ensures DecodedPodState(raw, env) == s.podState
    ensures DecodedInsulinType(raw, env) == s.insulinType
    ensures StoredOrLegacyIds(raw, s.podState) == (Some(s.controllerId), Some(s.podId))
  {
  }

  /** The doses, alerts and pending command of a document holding those of `s`. */
  lemma DecodeStoredLists(raw: RawDict, s: PumpManagerState, env: Collaborators,
                          activeOrder: seq<PumpManagerAlert>, pendingOrder: seq<PumpManagerAlert>)
    requires env.CodecsRoundTrip()
    requires Enumerates(activeOrder, s.activeAlerts)
    requires Enumerates(pendingOrder, s.alertsWithPendingAcknowledgment)
    requires StoresCollections(raw, s, env, activeOrder, pendingOrder) && StoresOptionals(raw, s, env)
    ensures DecodedDoses(raw, env) == s.unstoredDoses
    ensures DecodedAlerts(raw, ActiveAlertsKey, env) == s.activeAlerts
    ensures DecodedAlerts(raw, AlertsWithPendingAcknowledgmentKey, env) == s.alertsWithPendingAcknowledgment
    ensures DecodedPendingCommand(raw, env) == s.pendingCommand
  {
    DecodeSerialisedList(s.unstoredDoses, env.dose);
    DecodeSerialisedSet(activeOrder, s.activeAlerts, env.alert);
    DecodeSerialisedSet(pendingOrder, s.alertsWithPendingAcknowledgment, env.alert);
  }

  /**
   * Any version 2 document holding the fields of `s` under their keys decodes to `s`,
   * up to the transient fields, the insulin type default and the time zone rebuilt from
   * its offset.
   */
  lemma DecodeStoredFields(raw: RawDict, s: PumpManagerState, env: Collaborators,
                           activeOrder: seq<PumpManagerAlert>, pendingOrder: seq<PumpManagerAlert>,
                           freshControllerId: UInt32)
    requires env.CodecsRoundTrip()
    requires Enumerates(activeOrder, s.activeAlerts)
    requires Enumerates(pendingOrder, s.alertsWithPendingAcknowledgment)
    requires freshControllerId < UInt32Max
    requires StoresScalars(raw, s, env) && StoresFlags(raw, s) && StoresIdsAndReminders(raw, s)
    requires StoresCollections(raw, s, env, activeOrder, pendingOrder) && StoresOptionals(raw, s, env)
    ensures Decode(raw, env, freshControllerId) == Some(WithTransientStateReset(s).(
              insulinType := Some(s.insulinType.GetOr(env.novolog)),
              timeZone := env.timeZoneFromSeconds(env.secondsFromGMT(s.timeZone)).GetOr(env.currentFixed)))
  {
    DecodeStoredParts(raw, s, env, activeOrder, pendingOrder);
    DecodeStoredLists(raw, s, env, activeOrder, pendingOrder);
  }

  /**
   * Round trip: decoding what `rawValue` produced succeeds as a version 2 document and
   * gives back every persisted field; the transient engage states come back `Stable`,
   * an unset insulin type comes back as Novolog, and the time zone is whatever
   * `TimeZone(secondsFromGMT:)` rebuilds from the stored offset.
   */
  lemma RoundTrip(s: PumpManagerState, env: Collaborators,
                  activeOrder: seq<PumpManagerAlert>, pendingOrder: seq<PumpManagerAlert>,
                  freshControllerId: UInt32)
    requires env.CodecsRoundTrip()
    requires Enumerates(activeOrder, s.activeAlerts)
    requires Enumerates(pendingOrder, s.alertsWithPendingAcknowledgment)
    requires freshControllerId < UInt32Max
    ensures var raw := Encode(s, env, activeOrder, pendingOrder);
      var r := Decode(raw, env, freshControllerId);
      && AsInt(raw, VersionKey) == Some(Version)
      && r.Some?
      && r.value.basalSchedule == s.basalSchedule
      && r.value.podState == s.podState
      && r.value.controllerId == s.controllerId && r.value.podId == s.podId
      && r.value.unstoredDoses == s.unstoredDoses
      && r.value.confirmationBeeps == s.confirmationBeeps
      && r.value.activeAlerts == s.activeAlerts
      && r.value.alertsWithPendingAcknowledgment == s.alertsWithPendingAcknowledgment
      && r.value.isOnboarded == s.isOnboarded
      && r.value.initialConfigurationCompleted == s.initialConfigurationCompleted
      && r.value.podAttachmentConfirmed == s.podAttachmentConfirmed
      && r.value.acknowledgedTimeOffsetAlert == s.acknowledgedTimeOffsetAlert
      && r.value.pendingCommand == s.pendingCommand
      && r.value.scheduledExpirationReminderOffset == s.scheduledExpirationReminderOffset
      && r.value.defaultExpirationReminderOffset == s.defaultExpirationReminderOffset
      && r.value.lowReservoirReminderValue == s.lowReservoirReminderValue
      && r.value.insulinType == Some(s.insulinType.GetOr(env.novolog))
      && r.value.timeZone == env.timeZoneFromSeconds(env.secondsFromGMT(s.timeZone)).GetOr(env.currentFixed)
      && r.value.suspendEngageState == r.value.bolusEngageState == r.value.tempBasalEngageState == Stable
      && r.value.lastPumpDataReportDate.None?
  {
    EncodeStoresScalars(s, env, activeOrder, pendingOrder);
    EncodeStoresFlags(s, env, activeOrder, pendingOrder);
    EncodeStoresIdsAndReminders(s, env, activeOrder, pendingOrder);
    EncodeStoresCollections(s, env, activeOrder, pendingOrder);
    EncodeStoresOptionals(s, env, activeOrder, pendingOrder);
    DecodeStoredFields(Encode(s, env, activeOrder, pendingOrder), s, env, activeOrder, pendingOrder, freshControllerId);
  }

  /**
   * When the insulin type is set and the time zone survives its offset, a save and a
   * reload is exactly a restart: the persisted state with its transient fields reset.
   */
  lemma ReloadAfterSave(s: PumpManagerState, env: Collaborators, raw: RawDict, freshControllerId: UInt32)
    requires env.CodecsRoundTrip()
    requires IsEncodingOf(raw, s, env)
    requires s.insulinType.Some?
    requires env.timeZoneFromSeconds(env.secondsFromGMT(s.timeZone)) == Some(s.timeZone)
    requires freshControllerId < UInt32Max
    ensures Decode(raw, env, freshControllerId) == Some(WithTransientStateReset(s))
  {
    var activeOrder, pendingOrder :|
      && Enumerates(activeOrder, s.activeAlerts)
      && Enumerates(pendingOrder, s.alertsWithPendingAcknowledgment)
      && raw == Encode(s, env, activeOrder, pendingOrder);
    RoundTrip(s, env, activeOrder, pendingOrder, freshControllerId);
  }

  /**
   * Saving and reloading keeps what the pump manager reports about the pod: whether it
   * is active, whether its setup is complete, and its reservoir level.
   */
  lemma SaveReloadKeepsPodQueries(s: PumpManagerState, env: Collaborators, raw: RawDict,
                                  freshControllerId: UInt32)
    requires env.CodecsRoundTrip()
    requires IsEncodingOf(raw, s, env)
    requires freshControllerId < UInt32Max
    ensures Decode(raw, env, freshControllerId).Some?
    ensures var r := Decode(raw, env, freshControllerId).value;
      && (r.HasActivePod() <==> s.HasActivePod())
      && (r.HasSetupPod() <==> s.HasSetupPod())
      && r.LastReservoirLevel(env) == s.LastReservoirLevel(env)
  {
    var activeOrder, pendingOrder :|
      && Enumerates(activeOrder, s.activeAlerts)
      && Enumerates(pendingOrder, s.alertsWithPendingAcknowledgment)
      && raw == Encode(s, env, activeOrder, pendingOrder);
    RoundTrip(s, env, activeOrder, pendingOrder, freshControllerId);
  }
}
