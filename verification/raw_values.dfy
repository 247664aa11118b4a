/** The optional value used throughout the model: Swift's `Optional`. */
module Wrappers {

  datatype Option<+T> = None | Some(value: T) {

    /** Swift's `??`: the wrapped value, or `default` when there is none. */
    function GetOr(default: T): T {
      match this
      case Some(v) => v
      case None => default
    }
  }
}

/**
 * The persisted key/value document of a pump manager (`PumpManager.RawStateValue`,
 * a `[String: Any]`), and the conditional casts (`as? Int`, `as? Bool`, ...) the
 * decoder applies to its entries.
 *
 * Every scalar carries the Swift type it was stored with; a cast succeeds exactly
 * when the stored type is the requested one.
 */
module RawValues {
  import opened Wrappers

  /** Swift's `UInt32`. */
  type UInt32 = x: int | 0 <= x < 0x1_0000_0000

  const UInt32Max: UInt32 := 0xFFFF_FFFF

  /**
   * A key of a raw document. The keys the pump-manager state reads and writes are
   * named constructors, so distinct names are distinct keys; `Other` is any other key,
   * such as those of the nested documents other types write.
   */
  datatype Key =
    | VersionKey
    | IsOnboardedKey
    | TimeZoneKey
    | BasalScheduleKey
    | UnstoredDosesKey
    | ConfirmationBeepsKey
    | BolusBeepsKey
    | ActiveAlertsKey
    | PodAttachmentConfirmedKey
    | AcknowledgedTimeOffsetAlertKey
    | AlertsWithPendingAcknowledgmentKey
    | InitialConfigurationCompletedKey
    | InsulinTypeKey
    | PodStateKey
    | ControllerIdKey
    | PodIdKey
    | ScheduledExpirationReminderOffsetKey
    | DefaultExpirationReminderOffsetKey
    | LowReservoirReminderValueKey
    | PendingCommandKey
    | Other(name: string)
  {
    /** The string the Swift code uses for the key. */
    function Name(): string {
      match this
      case VersionKey => "version"
      case IsOnboardedKey => "isOnboarded"
      case TimeZoneKey => "timeZone"
      case BasalScheduleKey => "basalSchedule"
      case UnstoredDosesKey => "unstoredDoses"
      case ConfirmationBeepsKey => "confirmationBeeps"
      case BolusBeepsKey => "bolusBeeps"
      case ActiveAlertsKey => "activeAlerts"
      case PodAttachmentConfirmedKey => "podAttachmentConfirmed"
      case AcknowledgedTimeOffsetAlertKey => "acknowledgedTimeOffsetAlert"
      case AlertsWithPendingAcknowledgmentKey => "alertsWithPendingAcknowledgment"
      case InitialConfigurationCompletedKey => "initialConfigurationCompleted"
      case InsulinTypeKey => "insulinType"
      case PodStateKey => "podState"
      case ControllerIdKey => "controllerId"
      case PodIdKey => "podId"
      case ScheduledExpirationReminderOffsetKey => "scheduledExpirationReminderOffset"
      case DefaultExpirationReminderOffsetKey => "defaultExpirationReminderOffset"
      case LowReservoirReminderValueKey => "lowReservoirReminderValue"
      case PendingCommandKey => "pendingCommand"
      case Other(name) => name
    }

    /**
     * A key names itself unambiguously: `Other` never carries the name of one of the
     * keys the state reads and writes, which are always written by their constructor.
     */
    predicate Valid() {
      Other? ==> name !in NamedKeyNames
    }
  }

  /** The names of the keys the pump-manager state reads and writes. */
  const NamedKeyNames: set<string> := {
    "version", "isOnboarded", "timeZone", "basalSchedule", "unstoredDoses",
    "confirmationBeeps", "bolusBeeps", "activeAlerts", "podAttachmentConfirmed",
    "acknowledgedTimeOffsetAlert", "alertsWithPendingAcknowledgment",
    "initialConfigurationCompleted", "insulinType", "podState", "controllerId", "podId",
    "scheduledExpirationReminderOffset", "defaultExpirationReminderOffset",
    "lowReservoirReminderValue", "pendingCommand"}

  /** Valid keys with the same name are the same key, so a map over keys is a map over names. */
  lemma NameInjective(a: Key, b: Key)
    requires a.Valid() && b.Valid()
    ensures a.Name() == b.Name() <==> a == b
  {
  }

  /** One value stored under a key of a raw document. */
  datatype RawVal =
    | RInt(i: int)                    // Int
    | RUInt32(u: UInt32)              // UInt32
    | RBool(b: bool)                  // Bool
    | RDouble(d: real)                // Double / TimeInterval, passed through unchanged
    | RString(s: string)              // String
    | RList(items: seq<RawVal>)       // [Any]
    | RDict(entries: map<Key, RawVal>)  // [String: Any]

  /** A raw document: `[String: Any]`. */
  type RawDict = map<Key, RawVal>

  /** `d[k] as? Int` */
  function AsInt(d: RawDict, k: Key): Option<int> {
    if k in d && d[k].RInt? then Some(d[k].i) else None
  }

  /** `d[k] as? UInt32` */
  function AsUInt32(d: RawDict, k: Key): Option<UInt32> {
    if k in d && d[k].RUInt32? then Some(d[k].u) else None
  }

  /** `d[k] as? Bool` */
  function AsBool(d: RawDict, k: Key): Option<bool> {
    if k in d && d[k].RBool? then Some(d[k].b) else None
  }

  /** `d[k] as? Double` (also `as? TimeInterval`) */
  function AsDouble(d: RawDict, k: Key): Option<real> {
    if k in d && d[k].RDouble? then Some(d[k].d) else None
  }

  /** `d[k] as? [String: Any]` */
  function AsDict(d: RawDict, k: Key): Option<RawDict> {
    if k in d && d[k].RDict? then Some(d[k].entries) else None
  }

  /** True when every element of a raw array is a dictionary. */
  predicate AllDicts(items: seq<RawVal>) {
    forall i :: 0 <= i < |items| ==> items[i].RDict?
  }

  /**
   * `d[k] as? [[String: Any]]`: an array downcast succeeds only when EVERY
   * element is a dictionary; a single element of another type makes the
   * whole cast fail.
   */
  function AsDictList(d: RawDict, k: Key): Option<seq<RawDict>> {
    if k in d && d[k].RList? && AllDicts(d[k].items) then
      var items := d[k].items;
      Some(seq(|items|, i requires 0 <= i < |items| => items[i].entries))
    else
      None
  }

  /**
   * Swift's `d[k] = v` with an optional `v`: stores the value, or removes the key
   * when `v` is `nil`. Every other key is left as it was (`AssignKeepsOtherKeys`).
   */
  function Assign(d: RawDict, k: Key, v: Option<RawVal>): (r: RawDict)
    ensures k in r <==> v.Some?
    ensures v.Some? ==> r[k] == v.value
  {
    match v
    case Some(x) => d[k := x]
    case None => d - {k}
  }

  /**
   * The frame of `Assign`: every key other than the assigned one is left as it was.
   * It is stated per key, so a chain of assignments is unfolded only at the keys a
   * proof asks about.
   */
  lemma AssignKeepsOtherKeys(d: RawDict, k: Key, v: Option<RawVal>, j: Key)
    requires j != k
    ensures j in Assign(d, k, v) <==> j in d
    ensures j in d ==> Assign(d, k, v)[j] == d[j]
  {
  }

  /** A value stored under a key is read back by the cast of the type it was stored with. */
  lemma CastsReadBackStores(d: RawDict, k: Key, i: int, u: UInt32, b: bool, x: real, e: RawDict)
    ensures AsInt(d[k := RInt(i)], k) == Some(i)
    ensures AsUInt32(d[k := RUInt32(u)], k) == Some(u)
    ensures AsBool(d[k := RBool(b)], k) == Some(b)
    ensures AsDouble(d[k := RDouble(x)], k) == Some(x)
    ensures AsDict(d[k := RDict(e)], k) == Some(e)
    ensures AsDictList(d[k := RList([])], k) == Some([])
  {
    assert AsDictList(d[k := RList([])], k).value == [];
  }

  /**
   * The casts are strict: at most one of them succeeds on an entry, none on a missing
   * key, so a number stored as one type is never read as another.
   */
  lemma CastsExclusive(d: RawDict, k: Key)
    ensures k !in d ==> AsInt(d, k).None? && AsUInt32(d, k).None? && AsBool(d, k).None?
                        && AsDouble(d, k).None? && AsDict(d, k).None? && AsDictList(d, k).None?
    ensures AsInt(d, k).Some? ==> AsUInt32(d, k).None? && AsBool(d, k).None? && AsDouble(d, k).None?
                                  && AsDict(d, k).None? && AsDictList(d, k).None?
    ensures AsUInt32(d, k).Some? ==> AsBool(d, k).None? && AsDouble(d, k).None?
                                     && AsDict(d, k).None? && AsDictList(d, k).None?
    ensures AsBool(d, k).Some? ==> AsDouble(d, k).None? && AsDict(d, k).None? && AsDictList(d, k).None?
    ensures AsDouble(d, k).Some? ==> AsDict(d, k).None? && AsDictList(d, k).None?
    ensures AsDict(d, k).Some? ==> AsDictList(d, k).None?
  {
  }
}
