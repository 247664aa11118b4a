/**
 * The types the pump-manager state stores but does not define: the pod's session
 * state, the basal schedule, unfinalized doses, the pending command, pump-manager
 * alerts, insulin types and time zones. Their internals and parsers live in other
 * files of the system (or in LoopKit and Foundation) and are not part of this
 * model, so each is an abstract type and each parser/serialiser pair is a field
 * of a `Collaborators` record that every decoding and encoding function takes.
 */
module Collaborators {
  import opened Wrappers
  import opened RawValues

  /** Everything in a pod's session state that this core does not read. */
  type PodSession(==, !new)
  type BasalSchedule(==, !new)
  type UnfinalizedDose(==, !new)
  type PendingCommand(==, !new)
  type PumpManagerAlert(==, !new)
  type InsulinType(==, !new)
  type TimeZone(==, !new)
  type ReservoirLevel(==, !new)

  /** The last insulin measurements a pod reported. */
  datatype PodInsulinMeasurements = PodInsulinMeasurements(reservoirLevel: Option<real>)

  /**
   * `PodState`, reduced to the members this core reads: the pod's address, whether it
   * is active, whether setup is complete and its last insulin measurements.
   */
  datatype PodState = PodState(
    address: UInt32,
    isActive: bool,
    isSetupComplete: bool,
    lastInsulinMeasurements: Option<PodInsulinMeasurements>,
    session: PodSession)

  /** A `RawRepresentable` conformance: the failable `init?(rawValue:)` and `rawValue`. */
  datatype Codec<!R, !T(!new)> = Codec(parse: R -> Option<T>, encode: T -> R) {

    /** Parsing what was serialised gives the value back. */
    ghost predicate RoundTrips() {
      forall x :: parse(encode(x)) == Some(x)
    }
  }

  /** The collaborators of the state codec, and the constants it takes from other files. */
  datatype Collaborators = Collaborators(
    podState: Codec<RawDict, PodState>,
    basalSchedule: Codec<RawDict, BasalSchedule>,
    dose: Codec<RawDict, UnfinalizedDose>,
    pendingCommand: Codec<RawDict, PendingCommand>,
    alert: Codec<RawDict, PumpManagerAlert>,
    insulinType: Codec<int, InsulinType>,
    /** `InsulinType.novolog` */
    novolog: InsulinType,
    /** `TimeZone(secondsFromGMT:)`, which fails for offsets Foundation refuses */
    timeZoneFromSeconds: int -> Option<TimeZone>,
    /** `TimeZone.secondsFromGMT()` */
    secondsFromGMT: TimeZone -> int,
    /** `TimeZone.currentFixed`: the device's current zone, read from the environment */
    currentFixed: TimeZone,
    /** `ReservoirLevel(rawValue:)` */
    reservoirLevel: real -> ReservoirLevel,
    /** `Pod.defaultExpirationReminderOffset` */
    defaultExpirationReminderOffset: real,
    /** `Pod.defaultLowReservoirReminder` */
    defaultLowReservoirReminder: real)
  {
    /** Every stored collaborator value survives being serialised and parsed again. */
    ghost predicate CodecsRoundTrip() {
      && podState.RoundTrips()
      && basalSchedule.RoundTrips()
      && dose.RoundTrips()
      && pendingCommand.RoundTrips()
      && alert.RoundTrips()
      && insulinType.RoundTrips()
    }
  }
}
