/** What each request to the hub's interface does, told by the records alone: leases touched,
    reserved and released, services stopped and probed. */
module HubHandlers {
  import opened Wrappers
  import opened HubTypes
  import opened HubStore
  import opened HubStoreLaws
  import opened HubScheduler
  import opened HubMachine
  import opened HubSlots
  import opened HubLeases
  import opened HubEnds
  import opened HubStarts

  // After holds exactly what before holds beyond now.
  predicate Kept<K>(before: map<K, Time>, after: map<K, Time>, now: Time) {
    && (forall k :: k in after ==> k in before && before[k] > now && after[k] == before[k])
    && forall k :: k in before && before[k] > now ==> k in after
  }

  // The status of a service beside its leases: synced says that it was brought in line while there
  // was a lease, live or not; leased whether a live one is left.
  predicate Follows(was: ServiceStatus, status: ServiceStatus, synced: bool, leased: bool) {
    if was in {Processing, Starting, Stopping} then status == was
    else if leased then status == External
    else status == if synced || was == External then Idle else was
  }

  ghost predicate SizesStay(s: Store, r: Store) {
    && r.services.Keys == s.services.Keys
    && forall n :: n in s.services ==> r.services[n].queueSize == s.services[n].queueSize
  }

  // The queue size of a service went down with each of its failed sessions, and not below zero.
  predicate Drains(was: int, size: int, failed: nat) {
    size == if failed == 0 then was else if was > failed then was - failed else 0
  }

  function QueuedOf(sessions: map<SessionId, SessionRecord>, n: Name): set<SessionId> {
    set x | x in sessions && sessions[x].status == Queued && sessions[x].service == n
  }

  ghost predicate SizesDrain(s: Store, r: Store, d: Name) {
    && r.services.Keys == s.services.Keys
    && forall n :: n in s.services ==> Drains(s.services[n].queueSize, r.services[n].queueSize, if s.services[n].def.device == d then |QueuedOf(s.sessions, n)| else 0)
  }

  // The QUEUED sessions of the device have failed, and no other session has changed.
  ghost predicate SessionsFail(s: Store, r: Store, d: Name, now: Time) {
    && (forall x :: x in s.sessions <==> x in r.sessions)
    && forall x :: x in s.sessions ==>
         if QueuedOn(s, d, x) then r.sessions[x] == s.sessions[x].(status := Failed, finishedAt := Some(now))
         else r.sessions[x] == s.sessions[x]
  }

  ghost predicate QueuedFail(s: Store, r: Store, d: Name, now: Time) {
    SessionsFail(s, r, d, now) && SizesDrain(s, r, d)
  }

  ghost predicate OtherDevicesStay(s: Store, r: Store, d: Name) {
    (d in s.devices ==> d in r.devices) && forall e :: e in s.devices && e != d ==> e in r.devices && r.devices[e] == s.devices[e]
  }

  // The lease is recorded; held says whether it holds a slot of its device now.
  ghost predicate LeaseRecorded(s: Store, r: Store, svc: Name, lease: LeaseId, expires: Time, held: bool, now: Time) {
    && svc in s.services && svc in r.services
    && var rt, d := s.services[svc], s.services[svc].def.device;
       && Kept(rt.leases[lease := expires], r.services[svc].leases, now)
       && Follows(rt.status, r.services[svc].status, true, r.services[svc].leases != map[])
       && OtherDevicesStay(s, r, d)
       && (d in s.devices ==> Kept(if held then s.devices[d].slots[(svc, lease) := expires] else s.devices[d].slots, r.devices[d].slots, now))
       && if d in s.devices && held && s.devices[d].def.maxConcurrency == 1 then QueuedFail(s, r, d, now) else r.sessions == s.sessions && SizesStay(s, r)
  }

  // Only slots that have run out are gone.
  ghost predicate OnlyPruned(s: Store, r: Store, d: Name, now: Time) {
    && r.services == s.services && r.sessions == s.sessions && OtherDevicesStay(s, r, d)
    && (d in s.devices ==> Kept(s.devices[d].slots, r.devices[d].slots, now))
  }

  predicate HoldsSlot(s: Store, svc: Name, lease: LeaseId, now: Time) {
    && svc in s.services && s.services[svc].def.device in s.devices
    && (svc, lease) in s.devices[s.services[svc].def.device].slots
    && s.devices[s.services[svc].def.device].slots[(svc, lease)] > now
  }

  predicate SlotLeft(s: Store, d: Name, now: Time) {
    d in s.devices ==>
      s.devices[d].active + |set k | k in s.devices[d].slots && s.devices[d].slots[k] > now| < s.devices[d].def.maxConcurrency
  }

  // -- the touch --------------------------------------------------------------------------

  lemma KeptLive<K>(before: map<K, Time>, now: Time)
    ensures Kept(before, map k | k in before && before[k] > now :: before[k], now)
  {
  }

  lemma SyncedSwept(rt: ServiceRuntime, now: Time)
    ensures var r := SweptService(Synced(rt), now);
            Kept(rt.leases, r.leases, now) && Follows(rt.status, r.status, rt.leases != map[], r.leases != map[])
  {
    KeptLive(rt.leases, now);
    if rt.leases == map[] {
      assert LiveLeases(rt.leases, now) == map[];
    }
  }

  // The sweep behind a touch, on a device whose slots are at most as old as their leases.
  lemma SweptSlots(s: Store, svc: Name, now: Time)
    requires svc in s.services && Coupled(s.devices, s.services)
    ensures var r := Sweep(s, {svc}, now);
            && r.sessions == s.sessions && OtherDevicesStay(s, r, s.services[svc].def.device) && svc in r.services
            && r.services[svc] == SweptService(s.services[svc], now) && SizesStay(s, r)
    ensures var d := s.services[svc].def.device;
            d in s.devices ==> forall k :: k in Sweep(s, {svc}, now).devices[d].slots <==>
                                             k in s.devices[d].slots && (k.0 == svc ==> s.devices[d].slots[k] > now)
    ensures var d := s.services[svc].def.device;
            d in s.devices ==> forall k :: k in Sweep(s, {svc}, now).devices[d].slots ==>
                                             Sweep(s, {svc}, now).devices[d].slots[k] == s.devices[d].slots[k]
  {
    forall d, k | d in s.devices && k in s.devices[d].slots
      ensures StaleSlot(s, d, k, {svc}, now) <==> k.0 == svc && s.devices[d].slots[k] <= now
    {
      assert SlotHasLease(s.services, d, k, s.devices[d].slots[k]);
    }
    var r := Sweep(s, {svc}, now);
    forall e | e in s.devices && e != s.services[svc].def.device
      ensures r.devices[e] == s.devices[e]
    {
      forall k | k in s.devices[e].slots
        ensures k.0 != svc
      {
        assert SlotHasLease(s.services, e, k, s.devices[e].slots[k]);
      }
      assert r.devices[e].slots == s.devices[e].slots;
    }
  }

  lemma FailQueuedFails(s: Store, d: Name, now: Time)
    ensures QueuedFail(s, FailQueued(s, d, now), d, now) && FailQueued(s, d, now).devices == s.devices
  {
    forall n
      ensures QueuedFor(s, n) == QueuedOf(s.sessions, n)
    {
    }
  }

  lemma FailQueuedService(s: Store, d: Name, svc: Name, now: Time)
    requires svc in s.services
    ensures var r := FailQueued(s, d, now);
            svc in r.services && r.services[svc] == s.services[svc].(queueSize := r.services[svc].queueSize)
  {
  }

  // The store with the lease, before the queue is looked at; and behind that.
  lemma RecordSteps(s: Store, svc: Name, lease: LeaseId, expires: Time, now: Time) returns (s1: Store, s2: Store)
    requires svc in s.services
    ensures s1.sessions == s.sessions && s1.devices == s.devices && s1.services.Keys == s.services.Keys
    ensures s1.services == s.services[svc := s.services[svc].(leases := s.services[svc].leases[lease := expires])]
    ensures var d := s.services[svc].def.device;
            s2 == if d in s.devices && s.devices[d].def.maxConcurrency == 1 && (svc, lease) in s.devices[d].slots then FailQueued(s1, d, now) else s1
    ensures svc in s2.services && RecordLease(s, svc, lease, expires, now) == PutService(s2, svc, Synced(s2.services[svc]))
  {
    var rt, d := s.services[svc], s.services[svc].def.device;
    s1 := PutService(s, svc, rt.(leases := rt.leases[lease := expires]));
    s2 := if d in s.devices && s.devices[d].def.maxConcurrency == 1 && (svc, lease) in s.devices[d].slots then FailQueued(s1, d, now) else s1;
  }

  lemma SameQueued(s: Store, s1: Store, r: Store, d: Name, now: Time)
    requires s1.sessions == s.sessions && s1.services.Keys == s.services.Keys && QueuedFail(s1, r, d, now)
    requires forall n :: n in s.services ==> s1.services[n].def == s.services[n].def && s1.services[n].queueSize == s.services[n].queueSize
    ensures QueuedFail(s, r, d, now)
  {
  }

  // Bringing a status in line has no part in it.
  lemma SyncQueues(s: Store, s2: Store, svc: Name, d: Name, now: Time)
    requires svc in s2.services
    ensures var r := PutService(s2, svc, Synced(s2.services[svc]));
            && (QueuedFail(s, s2, d, now) ==> QueuedFail(s, r, d, now))
            && (s2.sessions == s.sessions && SizesStay(s, s2) ==> r.sessions == s.sessions && SizesStay(s, r))
  {
  }

  lemma RecordQueues(s: Store, s1: Store, s2: Store, d: Name, fails: bool, now: Time)
    requires s1.sessions == s.sessions && s1.services.Keys == s.services.Keys && s2 == (if fails then FailQueued(s1, d, now) else s1)
    requires forall n :: n in s.services ==> s1.services[n].def == s.services[n].def && s1.services[n].queueSize == s.services[n].queueSize
    ensures if fails then QueuedFail(s, s2, d, now) else s2.sessions == s.sessions && SizesStay(s, s2)
  {
    if fails {
      FailQueuedFails(s1, d, now);
      SameQueued(s, s1, s2, d, now);
    }
  }

  // A lease that holds the one slot of its device fails what is queued there.
  predicate FailsQueue(s: Store, svc: Name, lease: LeaseId)
    requires svc in s.services
  {
    var d := s.services[svc].def.device;
    d in s.devices && s.devices[d].def.maxConcurrency == 1 && (svc, lease) in s.devices[d].slots
  }

  lemma RecordSessions(s: Store, svc: Name, lease: LeaseId, expires: Time, now: Time)
    requires svc in s.services
    ensures var r, d := RecordLease(s, svc, lease, expires, now), s.services[svc].def.device;
            if FailsQueue(s, svc, lease) then QueuedFail(s, r, d, now) else r.sessions == s.sessions && SizesStay(s, r)
  {
    var s1, s2 := RecordSteps(s, svc, lease, expires, now);
    RecordQueues(s, s1, s2, s.services[svc].def.device, FailsQueue(s, svc, lease), now);
    SyncQueues(s, s2, svc, s.services[svc].def.device, now);
  }

  // What recording a lease does to its service before the sweep.
  lemma RecordDoes(s: Store, svc: Name, lease: LeaseId, expires: Time, now: Time)
    requires svc in s.services
    ensures var r := RecordLease(s, svc, lease, expires, now);
            && svc in r.services && r.devices == s.devices
            && r.services[svc].leases == s.services[svc].leases[lease := expires] && r.services[svc].def == s.services[svc].def
            && r.services[svc] == Synced(r.services[svc].(status := s.services[svc].status))
  {
    var s1, s2 := RecordSteps(s, svc, lease, expires, now);
    FailQueuedService(s1, s.services[svc].def.device, svc, now);
  }

  // The slots of the device are pruned, and the lease holds one, with its expiry, if it is to.
  predicate SlotsReady(slots: map<SlotKey, Time>, mid: map<SlotKey, Time>, own: SlotKey, expires: Time, held: bool, now: Time) {
    && Kept(slots - {own}, mid - {own}, now) && (own in mid <==> held) && (held ==> mid[own] == expires)
    && (!held && own in slots ==> slots[own] <= now)
  }

  lemma SlotsRecorded(slots: map<SlotKey, Time>, mid: map<SlotKey, Time>, after: map<SlotKey, Time>, own: SlotKey, expires: Time, held: bool, now: Time)
    requires SlotsReady(slots, mid, own, expires, held, now)
    requires forall k :: k in after <==> k in mid && (k.0 == own.0 ==> mid[k] > now)
    requires forall k :: k in after ==> after[k] == mid[k]
    ensures Kept(if held then slots[own := expires] else slots, after, now)
  {
    var before := if held then slots[own := expires] else slots;
    forall k
      ensures k in after <==> k in before && before[k] > now
      ensures k in after ==> after[k] == before[k]
    {
      if k != own {
        assert k in mid - {own} <==> k in mid;
        assert k in slots - {own} <==> k in slots;
      }
    }
  }

  ghost predicate DeviceReady(s: Store, mid: Store, svc: Name, lease: LeaseId, expires: Time, held: bool, now: Time)
    requires svc in s.services
  {
    var d := s.services[svc].def.device;
    && mid.services == s.services && mid.sessions == s.sessions && OtherDevicesStay(s, mid, d)
    && (d in mid.devices ==> d in s.devices)
    && (d in s.devices ==> mid.devices[d].def == s.devices[d].def
                           && SlotsReady(s.devices[d].slots, mid.devices[d].slots, (svc, lease), expires, held, now))
  }

  lemma SessionsRecorded(s: Store, mid: Store, r: Store, svc: Name, lease: LeaseId, expires: Time, held: bool, now: Time)
    requires svc in s.services && DeviceReady(s, mid, svc, lease, expires, held, now)
    requires var d := s.services[svc].def.device;
             if d in mid.devices && mid.devices[d].def.maxConcurrency == 1 && (svc, lease) in mid.devices[d].slots then QueuedFail(mid, r, d, now)
             else r.sessions == mid.sessions && SizesStay(mid, r)
    ensures var d := s.services[svc].def.device;
            if d in s.devices && held && s.devices[d].def.maxConcurrency == 1 then QueuedFail(s, r, d, now) else r.sessions == s.sessions && SizesStay(s, r)
  {
  }

  lemma FailedStays(s: Store, r: Store, r2: Store, d: Name, fails: bool, now: Time)
    requires if fails then QueuedFail(s, r, d, now) else r.sessions == s.sessions && SizesStay(s, r)
    requires r2.sessions == r.sessions && SizesStay(r, r2)
    ensures if fails then QueuedFail(s, r2, d, now) else r2.sessions == s.sessions && SizesStay(s, r2)
  {
  }

  // A lease is recorded on a store that is ready for it.
  lemma RecordAndSweep(s: Store, mid: Store, svc: Name, lease: LeaseId, expires: Time, held: bool, now: Time)
    requires svc in s.services && DeviceReady(s, mid, svc, lease, expires, held, now)
    requires Coupled(RecordLease(mid, svc, lease, expires, now).devices, RecordLease(mid, svc, lease, expires, now).services)
    ensures LeaseRecorded(s, Sweep(RecordLease(mid, svc, lease, expires, now), {svc}, now), svc, lease, expires, held, now)
  {
    var r, d := RecordLease(mid, svc, lease, expires, now), s.services[svc].def.device;
    RecordDoes(mid, svc, lease, expires, now);
    RecordSessions(mid, svc, lease, expires, now);
    assert lease in r.services[svc].leases;
    SyncedSwept(r.services[svc].(status := s.services[svc].status), now);
    SweptSlots(r, svc, now);
    FailedStays(mid, r, Sweep(r, {svc}, now), d, FailsQueue(mid, svc, lease), now);
    SessionsRecorded(s, mid, Sweep(r, {svc}, now), svc, lease, expires, held, now);
    if d in s.devices {
      SlotsRecorded(s.devices[d].slots, mid.devices[d].slots, Sweep(r, {svc}, now).devices[d].slots, (svc, lease), expires, held, now);
    }
  }

  lemma PrunedIs(s: Store, d: Name, now: Time)
    ensures OnlyPruned(s, Prune(s, d, now), d, now) && (HasFreeSlot(Prune(s, d, now), d) <==> SlotLeft(s, d, now))
    ensures d in s.devices ==> d in Prune(s, d, now).devices && Prune(s, d, now).devices[d] == s.devices[d].(slots := LiveSlots(s.devices[d].slots, now))
    ensures Prune(Prune(s, d, now), d, now) == Prune(s, d, now)
    ensures d !in s.devices ==> Prune(s, d, now) == s
  {
    if d in s.devices {
      var live := LiveSlots(s.devices[d].slots, now);
      assert live.Keys == set k | k in s.devices[d].slots && s.devices[d].slots[k] > now;
      assert LiveSlots(live, now) == live;
    }
  }

  lemma ReadyUnheld(s: Store, svc: Name, lease: LeaseId, expires: Time, now: Time)
    requires svc in s.services && !HoldsSlot(s, svc, lease, now)
    ensures DeviceReady(s, Prune(s, s.services[svc].def.device, now), svc, lease, expires, false, now)
  {
    PrunedIs(s, s.services[svc].def.device, now);
  }

  // The pruned store with the slot put there.
  function SlotPut(s: Store, svc: Name, lease: LeaseId, expires: Time, now: Time): Store
    requires svc in s.services && s.services[svc].def.device in s.devices
  {
    var d := s.services[svc].def.device;
    PutSlots(s, d, LiveSlots(s.devices[d].slots, now)[(svc, lease) := expires])
  }

  lemma ReadyHeld(s: Store, svc: Name, lease: LeaseId, expires: Time, now: Time)
    requires svc in s.services && s.services[svc].def.device in s.devices
    ensures DeviceReady(s, SlotPut(s, svc, lease, expires, now), svc, lease, expires, true, now)
  {
  }

  lemma TouchCases(s: Store, svc: Name, lease: LeaseId, expires: Time, reserve: bool, now: Time)
    requires svc in s.services
    ensures var d := s.services[svc].def.device;
            Touch(s, svc, lease, expires, reserve, now, now) ==
              if d !in s.devices && reserve then (s, Some(NoDeviceTable))
              else if d in s.devices && (HoldsSlot(s, svc, lease, now) || (reserve && SlotLeft(s, d, now)))
              then (RecordLease(SlotPut(s, svc, lease, expires, now), svc, lease, expires, now), None)
              else if reserve then (Prune(s, d, now), Some(DeviceOccupied))
              else (RecordLease(Prune(s, d, now), svc, lease, expires, now), None)
  {
    var d := s.services[svc].def.device;
    PrunedIs(s, d, now);
    if d in s.devices {
      var s1 := Prune(s, d, now);
      assert PutSlots(s1, d, s1.devices[d].slots[(svc, lease) := expires]) == SlotPut(s, svc, lease, expires, now);
    }
  }

  predicate TouchSucceeds(s: Store, svc: Name, lease: LeaseId, reserve: bool, now: Time)
    requires svc in s.services
  {
    reserve ==> s.services[svc].def.device in s.devices && (HoldsSlot(s, svc, lease, now) || SlotLeft(s, s.services[svc].def.device, now))
  }

  lemma TouchIs(s: Store, svc: Name, lease: LeaseId, expires: Time, reserve: bool, now: Time)
    requires Good(s) && svc in s.services
    ensures var (r, err) := Touch(s, svc, lease, expires, reserve, now, now);
            && (err.None? <==> TouchSucceeds(s, svc, lease, reserve, now))
            && if err.None? then LeaseRecorded(s, Sweep(r, {svc}, now), svc, lease, expires, reserve || HoldsSlot(s, svc, lease, now), now)
               else OnlyPruned(s, r, s.services[svc].def.device, now)
  {
    var d := s.services[svc].def.device;
    TouchCases(s, svc, lease, expires, reserve, now);
    TouchKeeps(s, svc, lease, expires, reserve, now, now);
    if !TouchSucceeds(s, svc, lease, reserve, now) {
      PrunedIs(s, d, now);
    } else if d in s.devices && (reserve || HoldsSlot(s, svc, lease, now)) {
      ReadyHeld(s, svc, lease, expires, now);
      RecordAndSweep(s, SlotPut(s, svc, lease, expires, now), svc, lease, expires, true, now);
    } else {
      ReadyUnheld(s, svc, lease, expires, now);
      RecordAndSweep(s, Prune(s, d, now), svc, lease, expires, false, now);
    }
  }

  /** A touch records the lease with its expiry, drops what has run out, refreshes the slot the lease
      holds, if it holds one, and on a single-slot device then fails what is queued. */
  lemma TouchStep(h: Hub, svc: Name, lease: LeaseId, expires: Time, m: Moment)
    requires Good(h.store) && Shape(h) && svc in h.store.services
    ensures var r := Step(h, TouchLease(svc, lease, expires), m);
            && r == h.(store := r.store)
            && LeaseRecorded(h.store, r.store, svc, lease, expires, HoldsSlot(h.store, svc, lease, m.now), m.now)
  {
    TouchIs(h.store, svc, lease, expires, false, m.now);
  }

  lemma AskedIs(s: Store, svc: Name, lease: LeaseId, now: Time)
    requires svc in s.services && s.services[svc].def.device in s.devices
    ensures ReserveReady(s, s.services[svc].def.device, svc, lease, now, now) == (Prune(s, s.services[svc].def.device, now), TouchSucceeds(s, svc, lease, true, now))
  {
    PrunedIs(s, s.services[svc].def.device, now);
  }

  lemma RecordedSincePruned(s: Store, mid: Store, r: Store, svc: Name, lease: LeaseId, expires: Time, now: Time)
    requires svc in s.services && OnlyPruned(s, mid, s.services[svc].def.device, now) && LeaseRecorded(mid, r, svc, lease, expires, true, now)
    requires s.services[svc].def.device in s.devices && mid.devices[s.services[svc].def.device].def == s.devices[s.services[svc].def.device].def
    ensures LeaseRecorded(s, r, svc, lease, expires, true, now)
  {
  }

  /** A turn of the reserving wait: if the lease holds a slot or one is left, the lease is recorded and
      holds a slot with its expiry; if not, nothing happens but that slots are pruned. */
  lemma ReserveStep(h: Hub, svc: Name, lease: LeaseId, expires: Time, m: Moment)
    requires Good(h.store) && Shape(h) && svc in h.store.services
    ensures var r := Step(h, ReserveLease(svc, lease, expires), m);
            && r == h.(store := r.store)
            && if TouchSucceeds(h.store, svc, lease, true, m.now) then LeaseRecorded(h.store, r.store, svc, lease, expires, true, m.now)
               else OnlyPruned(h.store, r.store, h.store.services[svc].def.device, m.now)
  {
    var d := h.store.services[svc].def.device;
    PrunedIs(h.store, d, m.now);
    if d in h.store.devices {
      AskedIs(h.store, svc, lease, m.now);
      var mid := Prune(h.store, d, m.now);
      if TouchSucceeds(h.store, svc, lease, true, m.now) {
        PruneQuiet(h.store, d, m.now);
        QuietKeeps(h.store, mid);
        AskedIs(mid, svc, lease, m.now);
        TouchIs(mid, svc, lease, expires, true, m.now);
        RecordedSincePruned(h.store, mid, Sweep(Touch(mid, svc, lease, expires, true, m.now, m.now).0, {svc}, m.now), svc, lease, expires, m.now);
      }
    }
  }

  ghost predicate SlotGone(s: Store, r: Store, svc: Name, lease: LeaseId, now: Time)
    requires svc in s.services
  {
    var d := s.services[svc].def.device;
    && OtherDevicesStay(s, r, d)
    && (d in s.devices ==>
          && (forall k :: k in r.devices[d].slots <==> k in s.devices[d].slots && k != (svc, lease) && (k.0 == svc ==> s.devices[d].slots[k] > now))
          && forall k :: k in r.devices[d].slots ==> r.devices[d].slots[k] == s.devices[d].slots[k])
  }

  ghost predicate LeaseGone(s: Store, r: Store, svc: Name, lease: LeaseId, now: Time) {
    && svc in s.services && svc in r.services && r.sessions == s.sessions
    && var left := s.services[svc].leases - {lease};
       && Kept(left, r.services[svc].leases, now)
       && Follows(s.services[svc].status, r.services[svc].status, left != map[], r.services[svc].leases != map[])
       && SlotGone(s, r, svc, lease, now)
  }

  lemma ReleaseDoes(s: Store, svc: Name, lease: LeaseId)
    requires svc in s.services
    ensures var r := Release(s, svc, lease);
            && OtherDevicesStay(s, r, s.services[svc].def.device) && r.sessions == s.sessions && svc in r.services
            && (forall e :: e in s.devices <==> e in r.devices) && r.services[svc].def == s.services[svc].def
            && r.services[svc] == Synced(s.services[svc].(leases := s.services[svc].leases - {lease}))
  {
  }

  lemma ReleasedSlotGone(s: Store, s1: Store, r: Store, svc: Name, lease: LeaseId, d: Name, now: Time)
    requires svc in s.services && d == s.services[svc].def.device && OtherDevicesStay(s, s1, d) && OtherDevicesStay(s1, r, d)
    requires forall e :: e in s.devices <==> e in s1.devices
    requires d in s.devices ==> s1.devices[d].slots == s.devices[d].slots - {(svc, lease)}
    requires d in s.devices ==>
               && (forall k :: k in r.devices[d].slots <==> k in s1.devices[d].slots && (k.0 == svc ==> s1.devices[d].slots[k] > now))
               && forall k :: k in r.devices[d].slots ==> r.devices[d].slots[k] == s1.devices[d].slots[k]
    ensures SlotGone(s, r, svc, lease, now)
  {
  }

  lemma ReleaseIs(s: Store, svc: Name, lease: LeaseId, now: Time)
    requires Good(s) && svc in s.services
    ensures LeaseGone(s, Sweep(Release(s, svc, lease), {svc}, now), svc, lease, now)
  {
    var s1, d := Release(s, svc, lease), s.services[svc].def.device;
    ReleaseKeeps(s, svc, lease);
    ReleaseReleases(s, svc, lease);
    ReleaseDoes(s, svc, lease);
    SyncedSwept(s.services[svc].(leases := s.services[svc].leases - {lease}), now);
    SweptSlots(s1, svc, now);
    ReleasedSlotGone(s, s1, Sweep(s1, {svc}, now), svc, lease, d, now);
  }

  /** A release: the lease is gone, and so are the leases and slots of the service that have run out;
      every other slot of every device stays. */
  lemma ReleaseStep(h: Hub, svc: Name, lease: LeaseId, m: Moment)
    requires Good(h.store) && Shape(h) && svc in h.store.services
    ensures var r := Step(h, ReleaseLease(svc, lease), m);
            r == h.(store := r.store) && LeaseGone(h.store, r.store, svc, lease, m.now)
  {
    ReleaseIs(h.store, svc, lease, m.now);
  }

  // -- stop and probe ---------------------------------------------------------------------

  // Only leases of the service that have run out are gone, with their slots.
  ghost predicate OnlySwept(s: Store, r: Store, svc: Name, now: Time) {
    && svc in s.services && svc in r.services && r.sessions == s.sessions
    && Kept(s.services[svc].leases, r.services[svc].leases, now)
    && r.services[svc] == s.services[svc].(leases := r.services[svc].leases, status := r.services[svc].status)
    && forall d :: d in s.devices ==>
         d in r.devices && r.devices[d].running == s.devices[d].running && r.devices[d].active == s.devices[d].active
  }

  lemma SweptOnly(s: Store, svc: Name, now: Time)
    requires svc in s.services
    ensures OnlySwept(s, Sweep(s, {svc}, now), svc, now)
    ensures Sweep(s, {svc}, now).services[svc] == SweptService(s.services[svc], now)
    ensures Sweep(s, {svc}, now).services[svc].leases != map[] <==> HasLive(s.services[svc].leases, now)
  {
    LiveIs(s.services[svc].leases, now);
  }

  // A stop is refused while a lease is live or a session is being served, and needless when stopped.
  ghost predicate StopAnswered(h: Hub, r: Hub, t: TaskId, svc: Name, now: Time)
    requires svc in h.store.services
  {
    var rt := h.store.services[svc];
    && OnlySwept(h.store, r.store, svc, now)
    && if HasLive(rt.leases, now) || rt.activeSession.Some? || rt.status == Stopped then t !in r.tasks
       else t in r.tasks && r.tasks[t] == HttpStopping(svc) && r.store.services[svc].status == Stopping
  }

  lemma StopRequestedIs(h: Hub, t: TaskId, svc: Name, m: Moment)
    requires t !in h.tasks && svc in h.store.services
    ensures StopAnswered(h, StopRequested(h, t, svc, m), t, svc, m.now)
  {
    SweptOnly(h.store, svc, m.now);
  }

  /** Stop requests. */
  lemma HttpStopStep(h: Hub, t: TaskId, svc: Name, m: Moment)
    requires Shape(h) && t.Http? && t !in h.tasks && svc in h.store.services
    ensures StopAnswered(h, Step(h, HttpStop(t, svc), m), t, svc, m.now)
  {
    StopRequestedIs(h, t, svc, m);
  }

  /** The end of their stop commands: the service is down, or, if the command failed, as it was. */
  lemma HttpStoppedStep(h: Hub, t: TaskId, ok: bool, m: Moment)
    requires Shape(h) && t in h.tasks && h.tasks[t].HttpStopping?
    ensures var r := Step(h, HttpStopped(t, ok), m);
            t !in r.tasks && if ok then WentDown(h.store, r.store, h.tasks[t].svc, m.now) else r.store == h.store
  {
    assert KnownTask(h.store, TaskDevice(h, t), h.tasks[t]) && RightTask(t, h.tasks[t]);
    MarkedStopped(h.store, h.tasks[t].svc, m.now);
  }

  // A stopped service that is found up is reported as started; any other is in use or idle.
  ghost predicate ProbeAnswered(s: Store, r: Store, svc: Name, now: Time)
    requires svc in s.services
  {
    if s.services[svc].status == Stopped then OnlyStarted(s, r, svc, now)
    else OnlySwept(s, r, svc, now) && r.services[svc].status == if HasLive(s.services[svc].leases, now) then External else Idle
  }

  lemma AfterProbeIs(h: Hub, t: TaskId, m: Moment)
    requires t in h.tasks && h.tasks[t].HttpProbing? && KnownTask(h.store, TaskDevice(h, t), h.tasks[t]) && t.Http?
    ensures var r := AfterProbe(h, t, true, m); t !in r.tasks && ProbeAnswered(h.store, r.store, h.tasks[t].svc, m.now)
  {
    SweptOnly(h.store, h.tasks[t].svc, m.now);
    MarkedStarted(h.store, h.tasks[t].svc, m.now);
  }

  ghost predicate ProbeOver(h: Hub, r: Hub, t: TaskId, svc: Name, ok: bool, now: Time) {
    t !in r.tasks && if ok then svc in h.store.services && ProbeAnswered(h.store, r.store, svc, now) else r.store == h.store
  }

  lemma AfterProbeOver(h: Hub, t: TaskId, ok: bool, m: Moment)
    requires t in h.tasks && h.tasks[t].HttpProbing? && KnownTask(h.store, TaskDevice(h, t), h.tasks[t]) && t.Http?
    ensures ProbeOver(h, AfterProbe(h, t, ok, m), t, h.tasks[t].svc, ok, m.now)
  {
    if ok {
      AfterProbeIs(h, t, m);
    }
  }

  /** The end of a health check; a failed one changes nothing. */
  lemma HttpProbedStep(h: Hub, t: TaskId, ok: bool, m: Moment)
    requires Shape(h) && t in h.tasks && h.tasks[t].HttpProbing?
    ensures ProbeOver(h, Step(h, HttpProbed(t, ok), m), t, h.tasks[t].svc, ok, m.now)
  {
    assert KnownTask(h.store, TaskDevice(h, t), h.tasks[t]) && RightTask(t, h.tasks[t]);
    AfterProbeOver(h, t, ok, m);
  }

  // -- cleanup ----------------------------------------------------------------------------

  // Ended for at least the time to live of its service's results.
  predicate Stale(s: Store, sid: SessionId, now: Time) {
    && sid in s.sessions && s.sessions[sid].status in {Finished, Failed} && s.sessions[sid].finishedAt.Some?
    && s.sessions[sid].service in s.services
    && now - s.sessions[sid].finishedAt.value >= s.services[s.sessions[sid].service].def.resultTtl * 1_000_000
  }

  ghost predicate SessionsCleaned(s: Store, r: Store, now: Time) {
    && (forall x :: x in s.sessions <==> x in r.sessions)
    && (forall x :: x in s.sessions ==>
          r.sessions[x] == if Stale(s, x, now) then s.sessions[x].(status := Expired) else s.sessions[x])
    && (forall x :: x in r.results <==> x in s.results && !Stale(s, x, now))
    && forall x :: x in r.results ==> r.results[x] == s.results[x]
  }

  ghost predicate TablesCleaned(s: Store, r: Store, now: Time) {
    && (forall n :: n in s.services ==>
          n in r.services && Kept(s.services[n].leases, r.services[n].leases, now)
          && Follows(s.services[n].status, r.services[n].status, false, r.services[n].leases != map[]))
    && forall d :: d in s.devices ==>
         d in r.devices && Kept(s.devices[d].slots, r.devices[d].slots, now)
         && r.devices[d] == s.devices[d].(slots := r.devices[d].slots)
  }

  lemma CleanupSessions(s: Store, now: Time)
    ensures SessionsCleaned(s, Cleanup(s, now), now)
  {
    var swept := Sweep(s, s.services.Keys, now);
    forall x | x in s.sessions
      ensures Outlived(swept, x, now) <==> Stale(s, x, now)
    {
    }
  }

  lemma SweptFollows(rt: ServiceRuntime, now: Time)
    ensures Kept(rt.leases, SweptService(rt, now).leases, now)
    ensures Follows(rt.status, SweptService(rt, now).status, false, SweptService(rt, now).leases != map[])
  {
    KeptLive(rt.leases, now);
  }

  lemma CleanupTables(s: Store, now: Time)
    requires Good(s)
    ensures TablesCleaned(s, Cleanup(s, now), now)
  {
    var r := Cleanup(s, now);
    CleanupLeavesOnlyLive(s, now);
    forall n | n in s.services
      ensures r.services[n] == SweptService(s.services[n], now)
      ensures Kept(s.services[n].leases, r.services[n].leases, now)
      ensures Follows(s.services[n].status, r.services[n].status, false, r.services[n].leases != map[])
    {
      SweptFollows(s.services[n], now);
    }
    forall d | d in s.devices
      ensures Kept(s.devices[d].slots, r.devices[d].slots, now)
    {
      forall k | k in s.devices[d].slots && s.devices[d].slots[k] > now
        ensures k in r.devices[d].slots
      {
        assert SlotHasLease(s.services, d, k, s.devices[d].slots[k]);
      }
    }
  }

  /** A cleanup drops exactly the leases and slots that have run out, expires exactly the sessions that
      ended long enough ago, with their results, and touches nothing else. */
  lemma CleanupStep(h: Hub, m: Moment)
    requires Good(h.store) && Shape(h)
    ensures var r := Step(h, CleanupTick, m);
            r == h.(store := r.store) && SessionsCleaned(h.store, r.store, m.now) && TablesCleaned(h.store, r.store, m.now)
  {
    CleanupSessions(h.store, m.now);
    CleanupTables(h.store, m.now);
  }

  // Every lease is live, and every status is in line.
  ghost predicate Tidy(s: Store, now: Time) {
    forall n :: n in s.services ==>
      (forall l :: l in s.services[n].leases ==> s.services[n].leases[l] > now) && Synced(s.services[n]) == s.services[n]
  }

  lemma SweptTwice(rt: ServiceRuntime, now: Time)
    ensures var r := SweptService(rt, now); (forall l :: l in r.leases ==> r.leases[l] > now) && Synced(r) == r
  {
  }

  lemma CleanupTidies(s: Store, now: Time)
    ensures Tidy(Cleanup(s, now), now)
  {
    CleanupSweeps(s, now);
    forall n | n in s.services
      ensures (forall l :: l in SweptService(s.services[n], now).leases ==> SweptService(s.services[n], now).leases[l] > now)
      ensures Synced(SweptService(s.services[n], now)) == SweptService(s.services[n], now)
    {
      SweptTwice(s.services[n], now);
    }
  }

  lemma SweepServices(s: Store, names: set<Name>, now: Time)
    requires Tidy(s, now)
    ensures Sweep(s, names, now).services == s.services
  {
    forall n | n in s.services
      ensures SweptService(s.services[n], now) == s.services[n]
    {
      assert LiveLeases(s.services[n].leases, now) == s.services[n].leases;
    }
  }

  lemma SweepDevices(s: Store, names: set<Name>, now: Time)
    requires Tidy(s, now)
    ensures Sweep(s, names, now).devices == s.devices
  {
    forall d | d in s.devices
      ensures SweptDevice(s, d, names, now) == s.devices[d]
    {
      assert SweptDevice(s, d, names, now).slots == s.devices[d].slots;
    }
  }

  /** Looking at a service cleans up first. */
  lemma LookAtStep(h: Hub, svc: Name, m: Moment)
    requires Shape(h)
    ensures Step(h, LookAt(svc), m) == Step(h, CleanupTick, m)
  {
    var s := Cleanup(h.store, m.now);
    CleanupTidies(h.store, m.now);
    SweepServices(s, {svc}, m.now);
    SweepDevices(s, {svc}, m.now);
  }
}
