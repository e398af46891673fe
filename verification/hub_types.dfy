/** Records of the model hub: definitions read from configuration, and the run-time
    records the state store keeps for devices, services and proxy sessions. */
module HubTypes {
  import opened Wrappers

  // A point on the hub's clock; wall clock and monotonic clock are one clock here.
  type Time = int
  type Name = string
  type LeaseId = string
  type SessionId = string
  type Payload = string
  type SlotKey = (Name, LeaseId)

  datatype ServiceStatus = Stopped | Starting | Idle | External | Processing | Stopping | Error

  datatype SessionStatus = Queued | SessionStarting | SessionProcessing | Finished | Failed | Expired

  datatype StartupMode = Once | Always

  datatype DeviceDefinition = DeviceDefinition(maxConcurrency: int, schedulingTimeout: int, resumeWindow: int)

  datatype ServiceDefinition = ServiceDefinition(device: Name, mode: StartupMode, memory: int, resultTtl: int)

  datatype DeviceRuntime = DeviceRuntime(
    def: DeviceDefinition,
    running: set<Name>,
    active: int,                        // proxy requests counted as in flight
    pending: map<SessionId, seq<Name>>, // services to restore after a session
    waiting: set<Name>,
    slots: map<SlotKey, Time>)          // reserved external slots and their expiry

  datatype ServiceRuntime = ServiceRuntime(
    def: ServiceDefinition,
    status: ServiceStatus,
    activeSession: Option<SessionId>,
    queueSize: int,
    inflight: int,
    lastUsed: Option<Time>,
    lastStarted: Option<Time>,
    lastStopped: Option<Time>,
    reclaimedFor: set<SessionId>,
    leases: map<LeaseId, Time>)

  datatype SessionRecord = SessionRecord(
    service: Name,
    status: SessionStatus,
    createdAt: Time,
    startedAt: Option<Time>,
    finishedAt: Option<Time>)

  // What a touch can answer instead of success.
  datatype LeaseError = NoDeviceTable | DeviceOccupied

  datatype Store = Store(
    devices: map<Name, DeviceRuntime>,
    services: map<Name, ServiceRuntime>,
    sessions: map<SessionId, SessionRecord>,
    results: map<SessionId, Payload>)
}
