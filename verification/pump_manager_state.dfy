/**
 * The persisted state of the OmniBLE pump manager
 * (OmniBLE/PumpManager/OmniBLEPumpManagerState.swift): the record, its memberwise
 * initialiser and the queries derived from the pod state.
 *
 * The Swift type is a struct, a value type, so the record is a datatype; its
 * raw (key/value) codec is in module PumpManagerStateRaw.
 */
module PumpManagerState {
  import opened Wrappers
  import opened RawValues
  import opened Collaborators

  /** The schema version written by the encoder. */
  const Version: int := 2

  /** Progress of one in-flight operation (suspend, bolus, temp basal); never persisted. */
  datatype EngageablePumpState = Engaging | Disengaging | Stable

  datatype PumpManagerState = PumpManagerState(
    isOnboarded: bool,
    podState: Option<PodState>,
    timeZone: TimeZone,
    basalSchedule: BasalSchedule,
    unstoredDoses: seq<UnfinalizedDose>,
    confirmationBeeps: bool,
    controllerId: UInt32,
    podId: UInt32,
    scheduledExpirationReminderOffset: Option<real>,
    defaultExpirationReminderOffset: real,
    lowReservoirReminderValue: real,
    podAttachmentConfirmed: bool,
    pendingCommand: Option<PendingCommand>,
    activeAlerts: set<PumpManagerAlert>,
    alertsWithPendingAcknowledgment: set<PumpManagerAlert>,
    acknowledgedTimeOffsetAlert: bool,
    /** the user has configured the pump manager, though maybe not paired a pod yet */
    initialConfigurationCompleted: bool,
    // transient, not persisted
    suspendEngageState: EngageablePumpState,
    bolusEngageState: EngageablePumpState,
    tempBasalEngageState: EngageablePumpState,
    /** seconds since the reference date */
    lastPumpDataReportDate: Option<real>,
    insulinType: Option<InsulinType>)
  {
    /** `reservoirLevel`: the reservoir level of the pod's last status response, if any. */
    function LastReservoirLevel(env: Collaborators): Option<ReservoirLevel> {
      if podState.Some? && podState.value.lastInsulinMeasurements.Some? then
        match podState.value.lastInsulinMeasurements.value.reservoirLevel
        case Some(l) => Some(env.reservoirLevel(l))
        case None => None
      else
        None
    }

    /** `hasActivePod` */
    predicate HasActivePod() {
      podState.Some? && podState.value.isActive
    }

    /** `hasSetupPod` */
    predicate HasSetupPod() {
      podState.Some? && podState.value.isSetupComplete
    }

    /** No pod state: no active pod, no set-up pod and no reservoir reading. */
    lemma NoPodNoReadings(env: Collaborators)
      requires podState.None?
      ensures !HasActivePod() && !HasSetupPod() && LastReservoirLevel(env).None?
    {
    }
  }

  /**
   * The memberwise `init(podState:timeZone:basalSchedule:controllerId:podId:insulinType:)`.
   *
   * `freshControllerId` stands for what `createControllerId()` returns; that function
   * is not part of this model. The pod id is then that value plus one in `UInt32`
   * arithmetic, which traps at the maximum, hence the precondition.
   */
  function Init(
    podState: Option<PodState>,
    timeZone: TimeZone,
    basalSchedule: BasalSchedule,
    controllerId: Option<UInt32>,
    podId: Option<UInt32>,
    insulinType: Option<InsulinType>,
    freshControllerId: UInt32,
    env: Collaborators): (s: PumpManagerState)
    requires freshControllerId < UInt32Max
    // the given values are stored
    ensures s.podState == podState && s.timeZone == timeZone
    ensures s.basalSchedule == basalSchedule && s.insulinType == insulinType
    // the ids are kept exactly when both are given; otherwise a fresh consecutive pair
    ensures controllerId.Some? && podId.Some? ==> s.controllerId == controllerId.value && s.podId == podId.value
    ensures controllerId.None? || podId.None? ==> s.controllerId == freshControllerId && s.podId == s.controllerId + 1
    // nothing recorded yet
    ensures s.unstoredDoses == [] && s.activeAlerts == {} && s.alertsWithPendingAcknowledgment == {}
    ensures s.pendingCommand.None? && s.scheduledExpirationReminderOffset.None? && s.lastPumpDataReportDate.None?
    ensures !s.confirmationBeeps && !s.podAttachmentConfirmed && !s.acknowledgedTimeOffsetAlert
    ensures !s.isOnboarded && !s.initialConfigurationCompleted
    ensures s.lowReservoirReminderValue == env.defaultLowReservoirReminder
    ensures s.defaultExpirationReminderOffset == env.defaultExpirationReminderOffset
    // no operation in flight
    ensures s.suspendEngageState == s.bolusEngageState == s.tempBasalEngageState == Stable
  {
    var (cid, pid) :=
      if controllerId.Some? && podId.Some? then (controllerId.value, podId.value)
      else (freshControllerId, freshControllerId + 1);
    PumpManagerState(
      isOnboarded := false,
      podState := podState,
      timeZone := timeZone,
      basalSchedule := basalSchedule,
      unstoredDoses := [],
      confirmationBeeps := false,
      controllerId := cid,
      podId := pid,
      scheduledExpirationReminderOffset := None,
      defaultExpirationReminderOffset := env.defaultExpirationReminderOffset,
      lowReservoirReminderValue := env.defaultLowReservoirReminder,
      podAttachmentConfirmed := false,
      pendingCommand := None,
      activeAlerts := {},
      alertsWithPendingAcknowledgment := {},
      acknowledgedTimeOffsetAlert := false,
      initialConfigurationCompleted := false,
      suspendEngageState := Stable,
      bolusEngageState := Stable,
      tempBasalEngageState := Stable,
      lastPumpDataReportDate := None,
      insulinType := insulinType)
  }

  /** The state a process restart leaves: the persisted fields, with every transient field reset. */
  function WithTransientStateReset(s: PumpManagerState): (r: PumpManagerState)
    ensures r.suspendEngageState == r.bolusEngageState == r.tempBasalEngageState == Stable
    ensures r.lastPumpDataReportDate.None?
    ensures r.(suspendEngageState := s.suspendEngageState, bolusEngageState := s.bolusEngageState,
               tempBasalEngageState := s.tempBasalEngageState,
               lastPumpDataReportDate := s.lastPumpDataReportDate) == s
  {
    s.(suspendEngageState := Stable, bolusEngageState := Stable, tempBasalEngageState := Stable,
       lastPumpDataReportDate := None)
  }
}
