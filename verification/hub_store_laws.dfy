/** What every store operation keeps: reserved slots are coupled to leases, EXTERNAL means a
    lease, STOPPED means not running, reserved slots stay within the device's concurrency. */
module HubStoreLaws {
  import opened Wrappers
  import opened HubTypes
  import opened HubStore

  type Devices = map<Name, DeviceRuntime>
  type Services = map<Name, ServiceRuntime>
  type Sessions = map<SessionId, SessionRecord>

  ghost predicate SessionsKnown(sessions: Sessions, services: Services) {
    forall sid :: sid in sessions ==> sessions[sid].service in services
  }

  ghost predicate RunningKnown(devices: Devices, services: Services) {
    forall d, n :: d in devices && n in devices[d].running ==> n in services && services[n].def.device == d
  }

  // The lease behind a reserved slot of device d, and its expiry.
  ghost predicate SlotHasLease(services: Services, d: Name, k: SlotKey, expires: Time) {
    && k.0 in services && services[k.0].def.device == d
    && k.1 in services[k.0].leases && services[k.0].leases[k.1] == expires
  }

  ghost predicate Coupled(devices: Devices, services: Services) {
    forall d, k :: d in devices && k in devices[d].slots ==> SlotHasLease(services, d, k, devices[d].slots[k])
  }

  ghost predicate StatusHonest(rt: ServiceRuntime) {
    rt.status == External ==> rt.leases != map[]
  }

  ghost predicate ExternalHasLease(services: Services) {
    forall n :: n in services ==> StatusHonest(services[n])
  }

  ghost predicate StoppedNotRunning(devices: Devices, services: Services) {
    forall d, n :: d in devices && n in devices[d].running && n in services ==> services[n].status != Stopped
  }

  ghost predicate DeviceBounded(rt: DeviceRuntime) {
    && rt.def.maxConcurrency > 0 && rt.active >= 0 && |rt.slots| <= rt.def.maxConcurrency
  }

  ghost predicate SlotsBounded(devices: Devices) {
    forall d :: d in devices ==> DeviceBounded(devices[d])
  }

  ghost predicate Good(s: Store) {
    && SessionsKnown(s.sessions, s.services)
    && RunningKnown(s.devices, s.services)
    && Coupled(s.devices, s.services)
    && ExternalHasLease(s.services)
    && StoppedNotRunning(s.devices, s.services)
    && SlotsBounded(s.devices)
  }

  // What no store operation changes: the tables' keys and the definitions.
  ghost predicate SameServices(services: Services, r: Services) {
    && services.Keys == r.Keys
    && forall n :: n in services ==> r[n].def == services[n].def
  }

  // The parts of the devices only the scheduler changes.
  ghost predicate SameLoad(devices: Devices, r: Devices) {
    && devices.Keys == r.Keys
    && forall d :: d in devices ==>
         r[d].def == devices[d].def && r[d].active == devices[d].active
         && r[d].running == devices[d].running && r[d].pending == devices[d].pending
  }

  ghost predicate FewerSlots(devices: Devices, r: Devices) {
    && SameLoad(devices, r)
    && forall d :: d in devices ==> SlotsWithin(r[d].slots, devices[d].slots)
  }

  ghost predicate SlotsWithin(slots: map<SlotKey, Time>, was: map<SlotKey, Time>) {
    forall k :: k in slots ==> k in was && slots[k] == was[k]
  }

  ghost predicate NoneStops(services: Services, r: Services) {
    && SameServices(services, r)
    && forall n :: n in services && r[n].status == Stopped ==> services[n].status == Stopped
  }

  ghost predicate SameLeases(services: Services, r: Services) {
    && SameServices(services, r)
    && forall n :: n in services ==> r[n].leases == services[n].leases
  }

  // -- frames: which changes leave which invariant alone ----------------------------------

  lemma SubmapSize(m: map<SlotKey, Time>, r: map<SlotKey, Time>)
    requires SlotsWithin(r, m)
    ensures |r| <= |m|
  {
    assert m.Keys == r.Keys + (m.Keys - r.Keys);
    assert |r.Keys| <= |m.Keys|;
  }

  lemma FewerSlotsBounded(devices: Devices, r: Devices)
    requires SlotsBounded(devices) && FewerSlots(devices, r)
    ensures SlotsBounded(r)
    ensures forall d :: d in devices ==> |r[d].slots| <= |devices[d].slots|
  {
    forall d | d in devices
      ensures DeviceBounded(r[d]) && |r[d].slots| <= |devices[d].slots|
    {
      SubmapSize(devices[d].slots, r[d].slots);
    }
  }

  lemma FewerSlotsCoupled(devices: Devices, r: Devices, services: Services, after: Services)
    requires Coupled(devices, services) && FewerSlots(devices, r) && SameLeases(services, after)
    ensures Coupled(r, after)
  {
    forall d, k | d in r && k in r[d].slots
      ensures SlotHasLease(after, d, k, r[d].slots[k])
    {
      assert SlotHasLease(services, d, k, devices[d].slots[k]);
    }
  }

  lemma FramesRunning(devices: Devices, services: Services, r: Devices, after: Services)
    requires RunningKnown(devices, services) && StoppedNotRunning(devices, services)
    requires SameLoad(devices, r) && NoneStops(services, after)
    ensures RunningKnown(r, after) && StoppedNotRunning(r, after)
  {
  }

  // A step that is quiet to the invariants: slots shrink, leases stay, no status becomes
  // STOPPED, EXTERNAL stays honest.
  ghost predicate Quiet(s: Store, r: Store) {
    && FewerSlots(s.devices, r.devices) && SameLeases(s.services, r.services) && NoneStops(s.services, r.services)
    && (ExternalHasLease(s.services) ==> ExternalHasLease(r.services))
    && (SessionsKnown(s.sessions, s.services) ==> SessionsKnown(r.sessions, r.services))
  }

  lemma QuietKeeps(s: Store, r: Store)
    requires Good(s) && Quiet(s, r)
    ensures Good(r)
  {
    FewerSlotsBounded(s.devices, r.devices);
    FewerSlotsCoupled(s.devices, r.devices, s.services, r.services);
    FramesRunning(s.devices, s.services, r.devices, r.services);
  }

  lemma QuietChain(s: Store, m: Store, r: Store)
    requires Quiet(s, m) && Quiet(m, r)
    ensures Quiet(s, r)
  {
    forall d | d in s.devices
      ensures SlotsWithin(r.devices[d].slots, s.devices[d].slots)
    {
      assert SlotsWithin(m.devices[d].slots, s.devices[d].slots);
      assert SlotsWithin(r.devices[d].slots, m.devices[d].slots);
    }
  }

  lemma SlotsGoQuiet(s: Store, d: Name, slots: map<SlotKey, Time>)
    requires d in s.devices && SlotsWithin(slots, s.devices[d].slots)
    ensures Quiet(s, PutSlots(s, d, slots))
  {
    var r := PutSlots(s, d, slots).devices;
    assert SameLoad(s.devices, r);
    forall e | e in s.devices
      ensures SlotsWithin(r[e].slots, s.devices[e].slots)
    {
    }
  }

  lemma PruneQuiet(s: Store, d: Name, now: Time)
    ensures Quiet(s, Prune(s, d, now))
    ensures Prune(s, d, now).services == s.services
    ensures Prune(s, d, now).sessions == s.sessions && Prune(s, d, now).results == s.results
  {
    if d in s.devices {
      SlotsGoQuiet(s, d, LiveSlots(s.devices[d].slots, now));
    }
  }

  // A service record changes without touching its leases or definition.
  lemma PutServiceQuiet(s: Store, svc: Name, rt: ServiceRuntime)
    requires svc in s.services
    requires rt.def == s.services[svc].def && rt.leases == s.services[svc].leases
    requires rt.status == Stopped ==> s.services[svc].status == Stopped
    requires rt.status == External ==> s.services[svc].status == External || rt.leases != map[]
    ensures Quiet(s, PutService(s, svc, rt))
  {
    var r := PutService(s, svc, rt);
    if ExternalHasLease(s.services) {
      forall n | n in r.services
        ensures StatusHonest(r.services[n])
      {
        assert StatusHonest(s.services[n]);
      }
    }
  }

  lemma PutSessionQuiet(s: Store, sid: SessionId, rec: SessionRecord)
    requires rec.service in s.services
    ensures Quiet(s, PutSession(s, sid, rec))
  {
  }

  // All service records change without touching leases or definitions, or their status.
  lemma StatusesStayHonest(services: Services, r: Services)
    requires SameLeases(services, r) && ExternalHasLease(services)
    requires forall n :: n in services ==> r[n].status == services[n].status
    ensures ExternalHasLease(r)
  {
    forall n | n in r
      ensures StatusHonest(r[n])
    {
      assert StatusHonest(services[n]);
    }
  }

  lemma FailQueuedQuiet(s: Store, d: Name, now: Time)
    ensures Quiet(s, FailQueued(s, d, now)) && FailQueued(s, d, now).devices == s.devices
  {
    var r := FailQueued(s, d, now);
    assert SameLeases(s.services, r.services) && NoneStops(s.services, r.services);
    if ExternalHasLease(s.services) {
      StatusesStayHonest(s.services, r.services);
    }
  }

  lemma ExpireQuiet(s: Store, now: Time)
    ensures Quiet(s, ExpireSessions(s, now))
  {
  }

  lemma CreateQuiet(s: Store, svc: Name, sid: SessionId, now: Time)
    requires svc in s.services
    ensures Quiet(s, CreateSession(s, svc, sid, now))
  {
    var rt := s.services[svc];
    var m := PutService(s, svc, rt.(queueSize := rt.queueSize + 1));
    PutServiceQuiet(s, svc, rt.(queueSize := rt.queueSize + 1));
    var rec := SessionRecord(svc, Queued, now, None, None);
    PutSessionQuiet(m, sid, rec);
    QuietChain(s, m, PutSession(m, sid, rec));
    assert CreateSession(s, svc, sid, now) == PutSession(m, sid, rec);
  }

  // -- sweeping ---------------------------------------------------------------------------

  lemma SweepSlots(s: Store, names: set<Name>, now: Time)
    ensures FewerSlots(s.devices, Sweep(s, names, now).devices)
  {
    var r := Sweep(s, names, now);
    forall d | d in s.devices
      ensures SlotsWithin(r.devices[d].slots, s.devices[d].slots)
    {
    }
  }

  lemma SweepStatuses(s: Store, names: set<Name>, now: Time)
    requires ExternalHasLease(s.services)
    ensures NoneStops(s.services, Sweep(s, names, now).services)
    ensures ExternalHasLease(Sweep(s, names, now).services)
  {
    var r := Sweep(s, names, now);
    forall n | n in r.services
      ensures StatusHonest(r.services[n])
    {
      assert StatusHonest(s.services[n]);
    }
  }

  lemma SweepCoupled(s: Store, names: set<Name>, now: Time)
    requires Coupled(s.devices, s.services)
    ensures Coupled(Sweep(s, names, now).devices, Sweep(s, names, now).services)
  {
    var r := Sweep(s, names, now);
    forall d, k | d in r.devices && k in r.devices[d].slots
      ensures SlotHasLease(r.services, d, k, r.devices[d].slots[k])
    {
      assert SlotHasLease(s.services, d, k, s.devices[d].slots[k]);
      assert !StaleSlot(s, d, k, names, now);
    }
  }

  lemma SweepKeeps(s: Store, names: set<Name>, now: Time)
    requires Good(s)
    ensures Good(Sweep(s, names, now))
  {
    var r := Sweep(s, names, now);
    SweepSlots(s, names, now);
    SweepStatuses(s, names, now);
    SweepCoupled(s, names, now);
    FewerSlotsBounded(s.devices, r.devices);
    FramesRunning(s.devices, s.services, r.devices, r.services);
  }

  // What is left of swept services' leases and slots is unexpired.
  lemma SweepLeavesOnlyLive(s: Store, names: set<Name>, now: Time)
    requires Coupled(s.devices, s.services)
    ensures forall n, l :: n in names && n in s.services && l in Sweep(s, names, now).services[n].leases ==>
              Sweep(s, names, now).services[n].leases[l] > now
    ensures forall d, k: SlotKey :: d in s.devices && k.0 in names && k in Sweep(s, names, now).devices[d].slots ==>
              Sweep(s, names, now).devices[d].slots[k] > now
  {
    var r := Sweep(s, names, now);
    forall d, k: SlotKey | d in s.devices && k.0 in names && k in r.devices[d].slots
      ensures r.devices[d].slots[k] > now
    {
      assert SlotHasLease(s.services, d, k, s.devices[d].slots[k]);
    }
  }

  lemma CleanupKeeps(s: Store, now: Time)
    requires Good(s)
    ensures Good(Cleanup(s, now))
  {
    var swept := Sweep(s, s.services.Keys, now);
    SweepKeeps(s, s.services.Keys, now);
    ExpireQuiet(swept, now);
    QuietKeeps(swept, Cleanup(s, now));
  }

  lemma CleanupSweeps(s: Store, now: Time)
    ensures Cleanup(s, now).services == Sweep(s, s.services.Keys, now).services
    ensures Cleanup(s, now).devices == Sweep(s, s.services.Keys, now).devices
  {
  }

  lemma CleanupLeavesNoSlot(s: Store, now: Time)
    requires Good(s)
    ensures forall d, k :: d in s.devices && k in Cleanup(s, now).devices[d].slots ==>
              Cleanup(s, now).devices[d].slots[k] > now
  {
    CleanupSweeps(s, now);
    CleanupKeeps(s, now);
    SweepLeavesOnlyLive(s, s.services.Keys, now);
    forall d, k | d in s.devices && k in Cleanup(s, now).devices[d].slots
      ensures Cleanup(s, now).devices[d].slots[k] > now
    {
      assert SlotHasLease(Cleanup(s, now).services, d, k, Cleanup(s, now).devices[d].slots[k]);
    }
  }

  // After cleanup_expired every remaining lease and every reserved slot expires later, no
  // finished or failed session is past its time to live, and only such sessions changed.
  lemma CleanupLeavesOnlyLive(s: Store, now: Time)
    requires Good(s)
    ensures forall n, l :: n in s.services && l in Cleanup(s, now).services[n].leases ==>
              Cleanup(s, now).services[n].leases[l] > now
    ensures forall d, k :: d in s.devices && k in Cleanup(s, now).devices[d].slots ==>
              Cleanup(s, now).devices[d].slots[k] > now
    ensures forall sid :: sid in s.sessions ==> !Outlived(Cleanup(s, now), sid, now)
    ensures forall sid :: sid in s.sessions && !Outlived(s, sid, now) ==>
              Cleanup(s, now).sessions[sid] == s.sessions[sid]
    ensures Good(Cleanup(s, now))
  {
    CleanupKeeps(s, now);
    CleanupLeavesNoSlot(s, now);
    SweepLeavesOnlyLive(s, s.services.Keys, now);
  }
}
