/** Touching and releasing external leases: the coupling of slots and leases survives, errors
    record nothing, and a reservation that was ready cannot fail. */
module HubLeases {
  import opened Wrappers
  import opened HubTypes
  import opened HubStore
  import opened HubStoreLaws

  // The coupling of every slot but (svc, lease), which must carry the expiry about to be recorded.
  ghost predicate CoupledBut(devices: Devices, services: Services, svc: Name, lease: LeaseId, expires: Time) {
    forall d, k :: d in devices && k in devices[d].slots ==>
      if k == (svc, lease) then svc in services && services[svc].def.device == d && devices[d].slots[k] == expires
      else SlotHasLease(services, d, k, devices[d].slots[k])
  }

  lemma RecordingCouples(devices: Devices, services: Services, svc: Name, lease: LeaseId, expires: Time, rt: ServiceRuntime)
    requires CoupledBut(devices, services, svc, lease, expires) && svc in services
    requires rt.def == services[svc].def && rt.leases == services[svc].leases[lease := expires]
    ensures Coupled(devices, services[svc := rt])
  {
    forall d, k | d in devices && k in devices[d].slots
      ensures SlotHasLease(services[svc := rt], d, k, devices[d].slots[k])
    {
      if k != (svc, lease) {
        assert SlotHasLease(services, d, k, devices[d].slots[k]);
      }
    }
  }

  // Storing the lease keeps the invariants when its slot, if any, already carries the expiry.
  lemma StoreLeaseKeeps(s: Store, svc: Name, lease: LeaseId, expires: Time)
    requires svc in s.services
    requires SessionsKnown(s.sessions, s.services) && RunningKnown(s.devices, s.services)
    requires ExternalHasLease(s.services) && StoppedNotRunning(s.devices, s.services) && SlotsBounded(s.devices)
    requires CoupledBut(s.devices, s.services, svc, lease, expires)
    ensures var rt := s.services[svc];
            Good(PutService(s, svc, rt.(leases := rt.leases[lease := expires])))
  {
    var rt := s.services[svc].(leases := s.services[svc].leases[lease := expires]);
    var r := PutService(s, svc, rt);
    RecordingCouples(s.devices, s.services, svc, lease, expires, rt);
    forall n | n in r.services
      ensures StatusHonest(r.services[n])
    {
      assert StatusHonest(s.services[n]);
      assert lease in rt.leases;
    }
  }

  lemma SyncQuiet(s: Store, svc: Name)
    requires svc in s.services
    ensures Quiet(s, PutService(s, svc, Synced(s.services[svc])))
  {
    PutServiceQuiet(s, svc, Synced(s.services[svc]));
  }

  lemma RecordLeaseKeeps(s: Store, svc: Name, lease: LeaseId, expires: Time, now: Time)
    requires svc in s.services
    requires SessionsKnown(s.sessions, s.services) && RunningKnown(s.devices, s.services)
    requires ExternalHasLease(s.services) && StoppedNotRunning(s.devices, s.services) && SlotsBounded(s.devices)
    requires CoupledBut(s.devices, s.services, svc, lease, expires)
    ensures Good(RecordLease(s, svc, lease, expires, now))
  {
    var rt := s.services[svc];
    var d := rt.def.device;
    StoreLeaseKeeps(s, svc, lease, expires);
    var s1 := PutService(s, svc, rt.(leases := rt.leases[lease := expires]));
    var s2 := if d in s1.devices && s1.devices[d].def.maxConcurrency == 1 && (svc, lease) in s1.devices[d].slots
              then FailQueued(s1, d, now) else s1;
    FailQueuedQuiet(s1, d, now);
    QuietRefl(s1);
    QuietKeeps(s1, s2);
    SyncQuiet(s2, svc);
    QuietKeeps(s2, RecordLease(s, svc, lease, expires, now));
  }

  lemma QuietRefl(s: Store)
    ensures Quiet(s, s)
  {
  }

  // Exactly one entry of the leases is new: this lease, with this expiry.
  ghost predicate OneLeaseSet(services: Services, r: Services, svc: Name, lease: LeaseId, expires: Time) {
    && SameServices(services, r) && svc in services
    && r[svc].leases == services[svc].leases[lease := expires]
    && forall n :: n in services && n != svc ==> r[n].leases == services[n].leases
  }

  lemma OneLeaseThenSame(services: Services, m: Services, r: Services, svc: Name, lease: LeaseId, expires: Time)
    requires OneLeaseSet(services, m, svc, lease, expires) && SameLeases(m, r)
    ensures OneLeaseSet(services, r, svc, lease, expires)
  {
  }

  lemma RecordLeaseRecords(s: Store, svc: Name, lease: LeaseId, expires: Time, now: Time)
    requires svc in s.services
    ensures OneLeaseSet(s.services, RecordLease(s, svc, lease, expires, now).services, svc, lease, expires)
    ensures RecordLease(s, svc, lease, expires, now).devices == s.devices
  {
    var rt := s.services[svc];
    var d := rt.def.device;
    var s1 := PutService(s, svc, rt.(leases := rt.leases[lease := expires]));
    assert OneLeaseSet(s.services, s1.services, svc, lease, expires);
    FailQueuedQuiet(s1, d, now);
    var s2 := if d in s1.devices && s1.devices[d].def.maxConcurrency == 1 && (svc, lease) in s1.devices[d].slots
              then FailQueued(s1, d, now) else s1;
    OneLeaseThenSame(s.services, s1.services, s2.services, svc, lease, expires);
    SyncQuiet(s2, svc);
    OneLeaseThenSame(s.services, s2.services, PutService(s2, svc, Synced(s2.services[svc])).services, svc, lease, expires);
  }

  lemma CoupledIsCoupledBut(devices: Devices, services: Services, svc: Name, lease: LeaseId, expires: Time)
    requires Coupled(devices, services) && svc in services
    requires services[svc].def.device in devices ==> (svc, lease) !in devices[services[svc].def.device].slots
    ensures CoupledBut(devices, services, svc, lease, expires)
  {
    forall d, k | d in devices && k in devices[d].slots
      ensures k != (svc, lease)
    {
      assert SlotHasLease(services, d, k, devices[d].slots[k]);
    }
  }

  lemma SlotSetIsCoupledBut(s: Store, svc: Name, lease: LeaseId, expires: Time)
    requires Coupled(s.devices, s.services) && svc in s.services && s.services[svc].def.device in s.devices
    ensures var d := s.services[svc].def.device;
            CoupledBut(PutSlots(s, d, s.devices[d].slots[(svc, lease) := expires]).devices, s.services, svc, lease, expires)
  {
    var d := s.services[svc].def.device;
    var r := PutSlots(s, d, s.devices[d].slots[(svc, lease) := expires]).devices;
    forall e, k | e in r && k in r[e].slots
      ensures if k == (svc, lease) then s.services[svc].def.device == e && r[e].slots[k] == expires
              else SlotHasLease(s.services, e, k, r[e].slots[k])
    {
      if k in s.devices[e].slots {
        assert SlotHasLease(s.services, e, k, s.devices[e].slots[k]);
      }
    }
  }

  lemma SlotSetBounded(devices: Devices, d: Name, slots: map<SlotKey, Time>)
    requires SlotsBounded(devices) && d in devices && |slots| <= devices[d].def.maxConcurrency
    ensures SlotsBounded(devices[d := devices[d].(slots := slots)])
  {
    forall e | e in devices
      ensures DeviceBounded(devices[d := devices[d].(slots := slots)][e])
    {
      assert DeviceBounded(devices[e]);
    }
  }

  // Giving the lease a slot (new or renewed) and recording it keeps the invariants.
  lemma TakeSlotKeeps(s: Store, svc: Name, lease: LeaseId, expires: Time, now: Time)
    requires Good(s) && svc in s.services && s.services[svc].def.device in s.devices
    requires var rt := s.devices[s.services[svc].def.device];
             (svc, lease) in rt.slots || |rt.slots| < rt.def.maxConcurrency
    ensures var d := s.services[svc].def.device;
            Good(RecordLease(PutSlots(s, d, s.devices[d].slots[(svc, lease) := expires]), svc, lease, expires, now))
  {
    var d := s.services[svc].def.device;
    var slots := s.devices[d].slots[(svc, lease) := expires];
    assert slots.Keys == s.devices[d].slots.Keys + {(svc, lease)};
    assert |slots| == |slots.Keys| && |s.devices[d].slots| == |s.devices[d].slots.Keys|;
    assert DeviceBounded(s.devices[d]);
    var taken := PutSlots(s, d, slots);
    SlotSetIsCoupledBut(s, svc, lease, expires);
    SlotSetBounded(s.devices, d, slots);
    SlotSetRunning(s, d, slots);
    RecordLeaseKeeps(taken, svc, lease, expires, now);
  }

  lemma SlotSetRunning(s: Store, d: Name, slots: map<SlotKey, Time>)
    requires RunningKnown(s.devices, s.services) && StoppedNotRunning(s.devices, s.services) && d in s.devices
    ensures RunningKnown(PutSlots(s, d, slots).devices, s.services)
    ensures StoppedNotRunning(PutSlots(s, d, slots).devices, s.services)
  {
  }

  lemma NewLeaseKeeps(s: Store, svc: Name, lease: LeaseId, expires: Time, now: Time)
    requires Good(s) && svc in s.services
    requires var d := s.services[svc].def.device; d in s.devices ==> (svc, lease) !in s.devices[d].slots
    ensures Good(RecordLease(s, svc, lease, expires, now))
  {
    CoupledIsCoupledBut(s.devices, s.services, svc, lease, expires);
    RecordLeaseKeeps(s, svc, lease, expires, now);
  }

  // touch_external_lease keeps every invariant, whatever it answers.
  lemma TouchKeeps(s: Store, svc: Name, lease: LeaseId, expires: Time, reserve: bool, t1: Time, t2: Time)
    requires Good(s) && svc in s.services
    ensures Good(Touch(s, svc, lease, expires, reserve, t1, t2).0)
  {
    var d := s.services[svc].def.device;
    if d !in s.devices {
      NewLeaseKeeps(s, svc, lease, expires, t2);
    } else {
      var s1 := Prune(s, d, t1);
      PruneQuiet(s, d, t1);
      QuietKeeps(s, s1);
      if (svc, lease) in s1.devices[d].slots {
        TakeSlotKeeps(s1, svc, lease, expires, t2);
      } else if !reserve {
        NewLeaseKeeps(s1, svc, lease, expires, t2);
      } else {
        var s2 := Prune(s1, d, t2);
        PruneQuiet(s1, d, t2);
        QuietKeeps(s1, s2);
        if HasFreeSlot(s2, d) {
          assert DeviceBounded(s2.devices[d]);
          TakeSlotKeeps(s2, svc, lease, expires, t2);
        }
      }
    }
  }

  ghost predicate SlotReserved(devices: Devices, d: Name, key: SlotKey, expires: Time) {
    d in devices && key in devices[d].slots && devices[d].slots[key] == expires
  }

  lemma TakeSlotRecords(s: Store, d: Name, svc: Name, lease: LeaseId, expires: Time, now: Time)
    requires svc in s.services && d in s.devices
    ensures var r := RecordLease(PutSlots(s, d, s.devices[d].slots[(svc, lease) := expires]), svc, lease, expires, now);
            OneLeaseSet(s.services, r.services, svc, lease, expires) && SlotReserved(r.devices, d, (svc, lease), expires)
  {
    RecordLeaseRecords(PutSlots(s, d, s.devices[d].slots[(svc, lease) := expires]), svc, lease, expires, now);
  }

  // A touch that answers an error changes no service record and no session; one that succeeds
  // records the lease with its expiry, changes no other lease and, when asked to reserve,
  // leaves the device holding a slot for this lease with the same expiry.
  lemma TouchRecords(s: Store, svc: Name, lease: LeaseId, expires: Time, reserve: bool, t1: Time, t2: Time)
    requires svc in s.services
    ensures var (r, err) := Touch(s, svc, lease, expires, reserve, t1, t2);
            && (err.Some? ==> r.services == s.services && r.sessions == s.sessions)
            && (err.None? ==> OneLeaseSet(s.services, r.services, svc, lease, expires))
            && (err.None? && reserve ==> SlotReserved(r.devices, s.services[svc].def.device, (svc, lease), expires))
  {
    var d := s.services[svc].def.device;
    if d !in s.devices {
      RecordLeaseRecords(s, svc, lease, expires, t2);
    } else {
      var s1 := Prune(s, d, t1);
      PruneQuiet(s, d, t1);
      if (svc, lease) in s1.devices[d].slots {
        TakeSlotRecords(s1, d, svc, lease, expires, t2);
      } else if !reserve {
        RecordLeaseRecords(s1, svc, lease, expires, t2);
      } else {
        PruneQuiet(s1, d, t2);
        TakeSlotRecords(Prune(s1, d, t2), d, svc, lease, expires, t2);
      }
    }
  }

  lemma PruneTwice(slots: map<SlotKey, Time>, t1: Time, t2: Time)
    requires t1 <= t2
    ensures LiveSlots(LiveSlots(slots, t1), t2) == LiveSlots(slots, t2)
  {
  }

  lemma LiveSlotsShrink(slots: map<SlotKey, Time>, key: SlotKey, t1: Time, t2: Time)
    requires t1 <= t2
    ensures |LiveSlots(slots, t2)| <= |LiveSlots(slots, t1)| <= |slots|
    ensures key in LiveSlots(slots, t1) && key !in LiveSlots(slots, t2) ==> |LiveSlots(slots, t2)| < |LiveSlots(slots, t1)|
  {
    var early, late := LiveSlots(slots, t1), LiveSlots(slots, t2);
    SubmapSize(slots, early);
    SubmapSize(early, late);
    if key in early && key !in late {
      SubmapSize(early - {key}, late);
      assert (early - {key}).Keys == early.Keys - {key};
    }
  }

  /** If the readiness question answered yes, the device is not over its concurrency and the
      clock only moved forward since, the reserving touch that follows under the device lock
      succeeds: whether it renews its slot, takes one again after its own ran out, or takes a
      free one. */
  lemma ReadyImpliesSuccess(s: Store, svc: Name, lease: LeaseId, expires: Time, r1: Time, r2: Time, t1: Time, t2: Time)
    requires svc in s.services && s.services[svc].def.device in s.devices
    requires r1 <= r2 <= t1 <= t2
    requires Used(s, s.services[svc].def.device) <= s.devices[s.services[svc].def.device].def.maxConcurrency
    requires ReserveReady(s, s.services[svc].def.device, svc, lease, r1, r2).1
    ensures var asked := ReserveReady(s, s.services[svc].def.device, svc, lease, r1, r2).0;
            svc in asked.services && Touch(asked, svc, lease, expires, true, t1, t2).1 == None
  {
    var d := s.services[svc].def.device;
    var slots := s.devices[d].slots;
    var key := (svc, lease);
    PruneTwice(slots, r1, t1);
    PruneTwice(slots, r1, r2);
    PruneTwice(slots, r2, t1);
    PruneTwice(slots, t1, t2);
    LiveSlotsShrink(slots, key, r1, t1);
    LiveSlotsShrink(slots, key, t1, t2);
    LiveSlotsShrink(slots, key, r2, t2);
    LiveSlotsShrink(slots, key, r1, t2);
  }

  // -- releasing --------------------------------------------------------------------------

  lemma ReleaseCouples(s: Store, svc: Name, lease: LeaseId)
    requires Coupled(s.devices, s.services) && svc in s.services
    ensures Coupled(Release(s, svc, lease).devices, Release(s, svc, lease).services)
  {
    var r := Release(s, svc, lease);
    forall d, k | d in r.devices && k in r.devices[d].slots
      ensures SlotHasLease(r.services, d, k, r.devices[d].slots[k])
    {
      assert SlotHasLease(s.services, d, k, s.devices[d].slots[k]);
      if k.0 == svc {
        assert k != (svc, lease);
      }
    }
  }

  lemma ReleaseSlots(s: Store, svc: Name, lease: LeaseId)
    requires svc in s.services
    ensures FewerSlots(s.devices, Release(s, svc, lease).devices)
  {
    forall d | d in s.devices
      ensures SlotsWithin(Release(s, svc, lease).devices[d].slots, s.devices[d].slots)
    {
    }
  }

  lemma ReleaseStatuses(s: Store, svc: Name, lease: LeaseId)
    requires svc in s.services && ExternalHasLease(s.services)
    ensures NoneStops(s.services, Release(s, svc, lease).services)
    ensures ExternalHasLease(Release(s, svc, lease).services)
  {
    var r := Release(s, svc, lease);
    forall n | n in r.services
      ensures StatusHonest(r.services[n])
    {
      assert StatusHonest(s.services[n]);
    }
  }

  // release_external_lease keeps the invariants.
  lemma ReleaseKeeps(s: Store, svc: Name, lease: LeaseId)
    requires Good(s) && svc in s.services
    ensures Good(Release(s, svc, lease))
  {
    var r := Release(s, svc, lease);
    ReleaseCouples(s, svc, lease);
    ReleaseSlots(s, svc, lease);
    ReleaseStatuses(s, svc, lease);
    FewerSlotsBounded(s.devices, r.devices);
    FramesRunning(s.devices, s.services, r.devices, r.services);
  }

  // It leaves neither the lease nor its slot on any device, and every other slot as it was.
  lemma ReleaseReleases(s: Store, svc: Name, lease: LeaseId)
    requires Coupled(s.devices, s.services) && svc in s.services
    ensures var r := Release(s, svc, lease);
            && svc in r.services && lease !in r.services[svc].leases
            && forall d :: d in s.devices ==> d in r.devices && r.devices[d].slots == s.devices[d].slots - {(svc, lease)}
  {
    var r := Release(s, svc, lease);
    forall d | d in s.devices
      ensures r.devices[d].slots == s.devices[d].slots - {(svc, lease)}
    {
      if (svc, lease) in s.devices[d].slots {
        assert SlotHasLease(s.services, d, (svc, lease), s.devices[d].slots[(svc, lease)]);
      }
    }
  }
}
