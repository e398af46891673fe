/** The requests that finish without waiting: submit, lease touches and releases, sweeps. They
    change no task, keep the store's invariants and never take a slot that is not free. */
module HubRequests {
  import opened Wrappers
  import opened HubTypes
  import opened HubStore
  import opened HubStoreLaws
  import opened HubLeases
  import opened HubScheduler
  import opened HubMoves
  import opened HubMachine
  import opened HubRuns
  import opened HubDispatch

  // The counts stay; a device gets more reserved slots only within its concurrency.
  ghost predicate DeviceHolds(a: DeviceRuntime, b: DeviceRuntime) {
    && b.def == a.def && b.active == a.active && b.running == a.running && b.pending == a.pending
    && (|b.slots| <= |a.slots| || UsedOf(b) <= b.def.maxConcurrency)
  }

  ghost predicate DevicesHold(devices: Devices, r: Devices) {
    devices.Keys == r.Keys && forall d :: d in devices ==> DeviceHolds(devices[d], r[d])
  }

  ghost predicate Holds(s: Store, r: Store) {
    && SameServices(s.services, r.services) && SessionsStay(s.sessions, r.sessions)
    && DevicesHold(s.devices, r.devices)
    && (Good(s) ==> Good(r))
  }

  lemma HoldsChain(s: Store, m: Store, r: Store)
    requires Holds(s, m) && Holds(m, r)
    ensures Holds(s, r)
  {
    forall d | d in s.devices
      ensures DeviceHolds(s.devices[d], r.devices[d])
    {
      assert DeviceHolds(s.devices[d], m.devices[d]);
      assert DeviceHolds(m.devices[d], r.devices[d]);
    }
  }

  lemma FewerSlotsHold(devices: Devices, r: Devices)
    requires FewerSlots(devices, r)
    ensures DevicesHold(devices, r)
  {
    forall d | d in devices
      ensures DeviceHolds(devices[d], r[d])
    {
      SubmapSize(devices[d].slots, r[d].slots);
    }
  }

  lemma QuietHolds(s: Store, r: Store)
    requires Quiet(s, r) && SessionsStay(s.sessions, r.sessions)
    ensures Holds(s, r)
  {
    FewerSlotsHold(s.devices, r.devices);
    if Good(s) {
      QuietKeeps(s, r);
    }
  }

  lemma SweepHolds(s: Store, names: set<Name>, now: Time)
    ensures Holds(s, Sweep(s, names, now))
  {
    SweepSlots(s, names, now);
    FewerSlotsHold(s.devices, Sweep(s, names, now).devices);
    if Good(s) {
      SweepKeeps(s, names, now);
    }
  }

  lemma PruneHolds(s: Store, d: Name, now: Time)
    ensures Holds(s, Prune(s, d, now))
  {
    PruneQuiet(s, d, now);
    QuietHolds(s, Prune(s, d, now));
  }

  lemma CleanupHolds(s: Store, now: Time)
    ensures Holds(s, Cleanup(s, now))
  {
    var swept := Sweep(s, s.services.Keys, now);
    SweepHolds(s, s.services.Keys, now);
    ExpireQuiet(swept, now);
    QuietHolds(swept, Cleanup(s, now));
    HoldsChain(s, swept, Cleanup(s, now));
  }

  lemma ReleaseHolds(s: Store, svc: Name, lease: LeaseId)
    requires svc in s.services && Good(s)
    ensures Holds(s, Release(s, svc, lease))
  {
    ReleaseSlots(s, svc, lease);
    FewerSlotsHold(s.devices, Release(s, svc, lease).devices);
    ReleaseStatuses(s, svc, lease);
    ReleaseKeeps(s, svc, lease);
  }

  // -- touching ---------------------------------------------------------------------------

  // Sessions change only their status and end when a lease is recorded.
  lemma RecordLeaseSessions(s: Store, svc: Name, lease: LeaseId, expires: Time, now: Time)
    requires svc in s.services
    ensures SessionsStay(s.sessions, RecordLease(s, svc, lease, expires, now).sessions)
  {
  }

  lemma TouchSessions(s: Store, svc: Name, lease: LeaseId, expires: Time, reserve: bool, t1: Time, t2: Time)
    requires svc in s.services
    ensures SessionsStay(s.sessions, Touch(s, svc, lease, expires, reserve, t1, t2).0.sessions)
  {
    var d := s.services[svc].def.device;
    var key := (svc, lease);
    RecordLeaseSessions(s, svc, lease, expires, t2);
    if d in s.devices {
      var s1 := Prune(s, d, t1);
      var s2 := Prune(s1, d, t2);
      RecordLeaseSessions(s1, svc, lease, expires, t2);
      RecordLeaseSessions(PutSlots(s1, d, s1.devices[d].slots[key := expires]), svc, lease, expires, t2);
      RecordLeaseSessions(PutSlots(s2, d, s2.devices[d].slots[key := expires]), svc, lease, expires, t2);
    }
  }

  lemma PutSlotsHolds(s: Store, d: Name, slots: map<SlotKey, Time>)
    requires d in s.devices
    requires |slots| <= |s.devices[d].slots| || s.devices[d].active + |slots| <= s.devices[d].def.maxConcurrency
    ensures DevicesHold(s.devices, PutSlots(s, d, slots).devices)
  {
  }

  lemma AddedSize(slots: map<SlotKey, Time>, key: SlotKey, expires: Time)
    ensures |slots[key := expires]| == if key in slots then |slots| else |slots| + 1
  {
    assert slots[key := expires].Keys == slots.Keys + {key};
    assert |slots[key := expires].Keys| == |slots[key := expires]| && |slots.Keys| == |slots|;
  }

  lemma DevicesHoldChain(a: Devices, b: Devices, c: Devices)
    requires DevicesHold(a, b) && DevicesHold(b, c)
    ensures DevicesHold(a, c)
  {
    forall d | d in a
      ensures DeviceHolds(a[d], c[d])
    {
      assert DeviceHolds(a[d], b[d]) && DeviceHolds(b[d], c[d]);
    }
  }

  lemma TakeSlotDevices(s: Store, d: Name, svc: Name, lease: LeaseId, expires: Time, now: Time)
    requires svc in s.services && d in s.devices
    requires (svc, lease) in s.devices[d].slots || SlotFree(s.devices[d])
    ensures DevicesHold(s.devices,
              RecordLease(PutSlots(s, d, s.devices[d].slots[(svc, lease) := expires]), svc, lease, expires, now).devices)
  {
    AddedSize(s.devices[d].slots, (svc, lease), expires);
    var slots := s.devices[d].slots[(svc, lease) := expires];
    PutSlotsHolds(s, d, slots);
    RecordLeaseRecords(PutSlots(s, d, slots), svc, lease, expires, now);
  }

  lemma TouchDevices(s: Store, svc: Name, lease: LeaseId, expires: Time, reserve: bool, t1: Time, t2: Time)
    requires svc in s.services
    ensures DevicesHold(s.devices, Touch(s, svc, lease, expires, reserve, t1, t2).0.devices)
  {
    var d := s.services[svc].def.device;
    if d !in s.devices {
      RecordLeaseRecords(s, svc, lease, expires, t2);
    } else {
      var s1 := Prune(s, d, t1);
      PruneHolds(s, d, t1);
      if (svc, lease) in s1.devices[d].slots {
        TakeSlotDevices(s1, d, svc, lease, expires, t2);
        DevicesHoldChain(s.devices, s1.devices, Touch(s, svc, lease, expires, reserve, t1, t2).0.devices);
      } else if !reserve {
        RecordLeaseRecords(s1, svc, lease, expires, t2);
      } else {
        TouchFresh(s1, d, svc, lease, expires, t2);
        DevicesHoldChain(s.devices, s1.devices, Touch(s, svc, lease, expires, reserve, t1, t2).0.devices);
      }
    }
  }

  // The reserving branch of a touch whose lease holds no slot yet.
  lemma TouchFresh(s: Store, d: Name, svc: Name, lease: LeaseId, expires: Time, now: Time)
    requires svc in s.services && d in s.devices
    ensures var s2 := Prune(s, d, now);
            DevicesHold(s.devices, if !HasFreeSlot(s2, d) then s2.devices
              else RecordLease(PutSlots(s2, d, s2.devices[d].slots[(svc, lease) := expires]), svc, lease, expires, now).devices)
  {
    var s2 := Prune(s, d, now);
    PruneHolds(s, d, now);
    if HasFreeSlot(s2, d) {
      TakeSlotDevices(s2, d, svc, lease, expires, now);
      DevicesHoldChain(s.devices, s2.devices,
        RecordLease(PutSlots(s2, d, s2.devices[d].slots[(svc, lease) := expires]), svc, lease, expires, now).devices);
    }
  }

  lemma TouchHolds(s: Store, svc: Name, lease: LeaseId, expires: Time, reserve: bool, t1: Time, t2: Time)
    requires svc in s.services && Good(s)
    ensures Holds(s, Touch(s, svc, lease, expires, reserve, t1, t2).0)
  {
    TouchKeeps(s, svc, lease, expires, reserve, t1, t2);
    TouchDevices(s, svc, lease, expires, reserve, t1, t2);
    TouchSessions(s, svc, lease, expires, reserve, t1, t2);
    TouchRecords(s, svc, lease, expires, reserve, t1, t2);
    TouchShape(s, svc, lease, expires, reserve, t1, t2);
  }

  lemma TouchShape(s: Store, svc: Name, lease: LeaseId, expires: Time, reserve: bool, t1: Time, t2: Time)
    requires svc in s.services
    ensures SameServices(s.services, Touch(s, svc, lease, expires, reserve, t1, t2).0.services)
  {
    TouchRecords(s, svc, lease, expires, reserve, t1, t2);
  }

  lemma ReserveReadyHolds(s: Store, d: Name, svc: Name, lease: LeaseId, t1: Time, t2: Time)
    ensures Holds(s, ReserveReady(s, d, svc, lease, t1, t2).0)
  {
    var s1 := Prune(s, d, t1);
    PruneHolds(s, d, t1);
    PruneHolds(s1, d, t2);
    HoldsChain(s, s1, Prune(s1, d, t2));
  }

  lemma ReservedHolds(s: Store, svc: Name, lease: LeaseId, expires: Time, now: Time)
    requires svc in s.services && Good(s)
    ensures Holds(s, Reserved(s, svc, lease, expires, now))
  {
    var d := s.services[svc].def.device;
    SameHolds(s);
    if d in s.devices {
      var (s1, ready) := ReserveReady(s, d, svc, lease, now, now);
      ReserveReadyHolds(s, d, svc, lease, now, now);
      if ready {
        var s2 := Touch(s1, svc, lease, expires, true, now, now).0;
        TouchHolds(s1, svc, lease, expires, true, now, now);
        SweepHolds(s2, {svc}, now);
        HoldsChain(s, s1, s2);
        HoldsChain(s, s2, Sweep(s2, {svc}, now));
      }
    }
  }

  lemma SameHolds(s: Store)
    ensures Holds(s, s)
  {
  }

  lemma PlainTouchHolds(s: Store, svc: Name, lease: LeaseId, expires: Time, now: Time)
    requires svc in s.services && Good(s)
    ensures Holds(s, Sweep(Touch(s, svc, lease, expires, false, now, now).0, {svc}, now))
  {
    var s1 := Touch(s, svc, lease, expires, false, now, now).0;
    TouchHolds(s, svc, lease, expires, false, now, now);
    SweepHolds(s1, {svc}, now);
    HoldsChain(s, s1, Sweep(s1, {svc}, now));
  }

  lemma ReleaseLeaseHolds(s: Store, svc: Name, lease: LeaseId, now: Time)
    requires svc in s.services && Good(s)
    ensures Holds(s, Sweep(Release(s, svc, lease), {svc}, now))
  {
    var s1 := Release(s, svc, lease);
    ReleaseHolds(s, svc, lease);
    SweepHolds(s1, {svc}, now);
    HoldsChain(s, s1, Sweep(s1, {svc}, now));
  }

  lemma LookAtHolds(s: Store, svc: Name, now: Time)
    ensures Holds(s, Sweep(Cleanup(s, now), {svc}, now))
  {
    var s1 := Cleanup(s, now);
    CleanupHolds(s, now);
    SweepHolds(s1, {svc}, now);
    HoldsChain(s, s1, Sweep(s1, {svc}, now));
  }

  lemma CreateHolds(s: Store, svc: Name, sid: SessionId, now: Time)
    requires svc in s.services && sid !in s.sessions
    ensures Holds(s, CreateSession(s, svc, sid, now))
  {
    CreateQuiet(s, svc, sid, now);
    QuietHolds(s, CreateSession(s, svc, sid, now));
  }

  lemma AcceptedHolds(s: Store, d: Name, svc: Name, sid: SessionId, now: Time)
    requires svc in s.services && sid !in s.sessions
    ensures Holds(s, CreateSession(Prune(s, d, now), svc, sid, now))
  {
    var s1 := Prune(s, d, now);
    PruneHolds(s, d, now);
    CreateHolds(s1, svc, sid, now);
    HoldsChain(s, s1, CreateSession(s1, svc, sid, now));
  }

  lemma SubmittedHolds(h: Hub, svc: Name, sid: SessionId, m: Moment)
    ensures Holds(h.store, Submitted(h, svc, sid, m).store)
  {
    SameHolds(h.store);
    if svc in h.store.services && sid !in h.store.sessions && h.store.services[svc].def.device in h.queues {
      var d := h.store.services[svc].def.device;
      PruneHolds(h.store, d, m.now);
      AcceptedHolds(h.store, d, svc, sid, m.now);
    }
  }
}
