/** What each operation of the in-memory state store does to the store, as a function of the
    store before. The class in hub_store_class.dfy computes these functions step by step; the
    laws about them are in hub_store_laws.dfy. */
module HubStore {
  import opened Wrappers
  import opened HubTypes

  // Clock ticks (microseconds) per second of a configured duration.
  const SECOND: int := 1_000_000

  function PutDevice(s: Store, d: Name, rt: DeviceRuntime): Store {
    s.(devices := s.devices[d := rt])
  }

  function PutService(s: Store, svc: Name, rt: ServiceRuntime): Store {
    s.(services := s.services[svc := rt])
  }

  function PutSession(s: Store, sid: SessionId, rec: SessionRecord): Store {
    s.(sessions := s.sessions[sid := rec])
  }

  function PutSlots(s: Store, d: Name, slots: map<SlotKey, Time>): Store
    requires d in s.devices
  {
    PutDevice(s, d, s.devices[d].(slots := slots))
  }

  // -- reserved slots ---------------------------------------------------------------------

  function LiveSlots(slots: map<SlotKey, Time>, now: Time): map<SlotKey, Time> {
    map k | k in slots && slots[k] > now :: slots[k]
  }

  function Prune(s: Store, d: Name, now: Time): Store {
    if d in s.devices then PutSlots(s, d, LiveSlots(s.devices[d].slots, now)) else s
  }

  // Slots in use on a device: counted proxy requests and reserved external slots.
  function Used(s: Store, d: Name): int
    requires d in s.devices
  {
    s.devices[d].active + |s.devices[d].slots|
  }

  predicate HasFreeSlot(s: Store, d: Name) {
    d in s.devices ==> Used(s, d) < s.devices[d].def.maxConcurrency
  }

  // can_accept_proxy_work: prunes, then asks for a free slot.
  function CanAccept(s: Store, d: Name, now: Time): (Store, bool) {
    var pruned := Prune(s, d, now);
    (pruned, HasFreeSlot(pruned, d))
  }

  // external_reserve_slot_ready reads the clock twice: for its own pruning and for the usage.
  function ReserveReady(s: Store, d: Name, svc: Name, lease: LeaseId, t1: Time, t2: Time): (Store, bool) {
    var pruned := Prune(s, d, t1);
    if d in pruned.devices && (svc, lease) in pruned.devices[d].slots then (pruned, true)
    else CanAccept(pruned, d, t2)
  }

  // -- external leases --------------------------------------------------------------------

  function LiveLeases(leases: map<LeaseId, Time>, now: Time): map<LeaseId, Time> {
    map l | l in leases && leases[l] > now :: leases[l]
  }

  function Synced(rt: ServiceRuntime): ServiceRuntime {
    if rt.status in {Processing, Starting, Stopping} then rt
    else if rt.leases != map[] then rt.(status := External)
    else if rt.status == External then rt.(status := Idle)
    else rt
  }

  // The slot k on device d belongs to a lease, of one of the named services, that has run out.
  predicate StaleSlot(s: Store, d: Name, k: SlotKey, names: set<Name>, now: Time) {
    && k.0 in names && k.0 in s.services
    && s.services[k.0].def.device == d
    && k.1 in s.services[k.0].leases && s.services[k.0].leases[k.1] <= now
  }

  function SweptDevice(s: Store, d: Name, names: set<Name>, now: Time): DeviceRuntime
    requires d in s.devices
  {
    var rt := s.devices[d];
    rt.(slots := map k | k in rt.slots && !StaleSlot(s, d, k, names, now) :: rt.slots[k])
  }

  function SweptService(rt: ServiceRuntime, now: Time): ServiceRuntime {
    Synced(rt.(leases := LiveLeases(rt.leases, now)))
  }

  // service_has_external_activity for every named service: drops leases that have run out,
  // with the slots they held, and brings the status in line.
  function Sweep(s: Store, names: set<Name>, now: Time): Store {
    s.(devices := map d | d in s.devices :: SweptDevice(s, d, names, now),
       services := map n | n in s.services :: if n in names then SweptService(s.services[n], now) else s.services[n])
  }

  predicate HasExternalActivity(s: Store, svc: Name, now: Time)
    requires svc in s.services
  {
    LiveLeases(s.services[svc].leases, now) != map[]
  }

  // -- sessions ---------------------------------------------------------------------------

  function CreateSession(s: Store, svc: Name, sid: SessionId, now: Time): Store
    requires svc in s.services
  {
    var rt := s.services[svc];
    PutSession(PutService(s, svc, rt.(queueSize := rt.queueSize + 1)), sid,
               SessionRecord(svc, Queued, now, None, None))
  }

  predicate QueuedOn(s: Store, d: Name, sid: SessionId) {
    && sid in s.sessions && s.sessions[sid].status == Queued
    && s.sessions[sid].service in s.services && s.services[s.sessions[sid].service].def.device == d
  }

  function QueuedFor(s: Store, svc: Name): set<SessionId> {
    set sid | sid in s.sessions && s.sessions[sid].status == Queued && s.sessions[sid].service == svc
  }

  // n times: the queue size goes down by one, but not below zero.
  function Drained(queueSize: int, n: nat): int {
    if n == 0 then queueSize else if queueSize >= n then queueSize - n else 0
  }

  function FailedAt(rec: SessionRecord, now: Time): SessionRecord {
    rec.(status := Failed, finishedAt := Some(now))
  }

  // _fail_queued_sessions_on_device
  function FailQueued(s: Store, d: Name, now: Time): Store {
    s.(sessions := map sid | sid in s.sessions ::
         if QueuedOn(s, d, sid) then FailedAt(s.sessions[sid], now) else s.sessions[sid],
       services := map n | n in s.services ::
         if s.services[n].def.device == d
         then s.services[n].(queueSize := Drained(s.services[n].queueSize, |QueuedFor(s, n)|))
         else s.services[n])
  }

  // abort_proxy_session_device_busy: the answer is true when the session was failed.
  function AbortIfBusy(s: Store, d: Name, sid: SessionId, now: Time): (Store, bool)
    requires sid in s.sessions
  {
    if s.sessions[sid].status != Queued then (s, false)
    else
      var (pruned, ok) := CanAccept(s, d, now);
      if ok then (pruned, false)
      else (PutSession(pruned, sid, FailedAt(pruned.sessions[sid], now)), true)
  }

  // -- touch and release ------------------------------------------------------------------

  // The last part of touch_external_lease, after the slot question is settled.
  function RecordLease(s: Store, svc: Name, lease: LeaseId, expires: Time, now: Time): Store
    requires svc in s.services
  {
    var rt := s.services[svc];
    var d := rt.def.device;
    var s1 := PutService(s, svc, rt.(leases := rt.leases[lease := expires]));
    var s2 := if d in s1.devices && s1.devices[d].def.maxConcurrency == 1 && (svc, lease) in s1.devices[d].slots
              then FailQueued(s1, d, now) else s1;
    PutService(s2, svc, Synced(s2.services[svc]))
  }

  // touch_external_lease; t1 is the clock at its own pruning, t2 at the usage question.
  function Touch(s: Store, svc: Name, lease: LeaseId, expires: Time, reserve: bool, t1: Time, t2: Time)
    : (Store, Option<LeaseError>)
    requires svc in s.services
  {
    var d := s.services[svc].def.device;
    if d !in s.devices then
      if reserve then (s, Some(NoDeviceTable)) else (RecordLease(s, svc, lease, expires, t2), None)
    else
      var s1 := Prune(s, d, t1);
      var slots := s1.devices[d].slots;
      if (svc, lease) in slots then
        (RecordLease(PutSlots(s1, d, slots[(svc, lease) := expires]), svc, lease, expires, t2), None)
      else if !reserve then
        (RecordLease(s1, svc, lease, expires, t2), None)
      else
        var s2 := Prune(s1, d, t2);
        if !HasFreeSlot(s2, d) then (s2, Some(DeviceOccupied))
        else
          var taken := PutSlots(s2, d, s2.devices[d].slots[(svc, lease) := expires]);
          (RecordLease(taken, svc, lease, expires, t2), None)
  }

  function SlotReleased(s: Store, svc: Name, lease: LeaseId): Store
    requires svc in s.services
  {
    var d := s.services[svc].def.device;
    if d in s.devices then PutSlots(s, d, s.devices[d].slots - {(svc, lease)}) else s
  }

  function Release(s: Store, svc: Name, lease: LeaseId): Store
    requires svc in s.services
  {
    var rt := s.services[svc];
    SlotReleased(PutService(s, svc, Synced(rt.(leases := rt.leases - {lease}))), svc, lease)
  }

  // -- services ---------------------------------------------------------------------------

  function MarkStarted(s: Store, svc: Name, now: Time): Store
    requires svc in s.services
  {
    var rt := s.services[svc];
    var d := rt.def.device;
    var s1 := PutService(s, svc, rt.(status := Idle, lastStarted := Some(now)));
    if d in s1.devices then PutDevice(s1, d, s1.devices[d].(running := s1.devices[d].running + {svc})) else s1
  }

  function MarkStopped(s: Store, svc: Name, now: Time): Store
    requires svc in s.services
  {
    var rt := s.services[svc];
    var d := rt.def.device;
    var s1 := PutService(s, svc, rt.(status := Stopped, activeSession := None, inflight := 0, lastStopped := Some(now)));
    if d in s1.devices then PutDevice(s1, d, s1.devices[d].(running := s1.devices[d].running - {svc})) else s1
  }

  // -- cleanup ----------------------------------------------------------------------------

  predicate Outlived(s: Store, sid: SessionId, now: Time) {
    && sid in s.sessions
    && s.sessions[sid].status in {Finished, Failed}
    && s.sessions[sid].finishedAt.Some?
    && s.sessions[sid].service in s.services
    && now - s.sessions[sid].finishedAt.value >= s.services[s.sessions[sid].service].def.resultTtl * SECOND
  }

  function ExpireSessions(s: Store, now: Time): Store {
    s.(sessions := map sid | sid in s.sessions ::
         if Outlived(s, sid, now) then s.sessions[sid].(status := Expired) else s.sessions[sid],
       results := map sid | sid in s.results && !Outlived(s, sid, now) :: s.results[sid])
  }

  // cleanup_expired
  function Cleanup(s: Store, now: Time): Store {
    ExpireSessions(Sweep(s, s.services.Keys, now), now)
  }
}
