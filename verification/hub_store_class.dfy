/** The in-memory state store as an object: its tables are updated in place, step by step, and
    every method leaves them as the functions of HubStore say. */
module HubStoreClass {
  import opened Wrappers
  import opened HubTypes
  import opened HubStore

  function InitialDevice(def: DeviceDefinition): DeviceRuntime {
    DeviceRuntime(def, {}, 0, map[], {}, map[])
  }

  function InitialService(def: ServiceDefinition): ServiceRuntime {
    ServiceRuntime(def, Stopped, None, 0, 0, None, None, None, {}, map[])
  }

  class InMemoryStateStore {
    var devices: map<Name, DeviceRuntime>
    var services: map<Name, ServiceRuntime>
    var sessions: map<SessionId, SessionRecord>
    var results: map<SessionId, Payload>

    function State(): Store
      reads this
    {
      Store(devices, services, sessions, results)
    }

    constructor (deviceDefs: map<Name, DeviceDefinition>, serviceDefs: map<Name, ServiceDefinition>)
      ensures devices.Keys == deviceDefs.Keys && services.Keys == serviceDefs.Keys && sessions == map[] && results == map[]
      ensures forall d :: d in deviceDefs ==> devices[d] == InitialDevice(deviceDefs[d])
      ensures forall n :: n in serviceDefs ==> services[n] == InitialService(serviceDefs[n])
    {
      devices := map d | d in deviceDefs :: InitialDevice(deviceDefs[d]);
      services := map n | n in serviceDefs :: InitialService(serviceDefs[n]);
      sessions, results := map[], map[];
    }

    method CreateSession(svc: Name, sid: SessionId, now: Time)
      requires svc in services
      modifies this
      ensures State() == HubStore.CreateSession(old(State()), svc, sid, now)
    {
      sessions := sessions[sid := SessionRecord(svc, Queued, now, None, None)];
      services := services[svc := services[svc].(queueSize := services[svc].queueSize + 1)];
    }

    method MarkServiceStarted(svc: Name, now: Time)
      requires svc in services
      modifies this
      ensures State() == MarkStarted(old(State()), svc, now)
    {
      services := services[svc := services[svc].(status := Idle, lastStarted := Some(now))];
      var d := services[svc].def.device;
      if d in devices {
        devices := devices[d := devices[d].(running := devices[d].running + {svc})];
      }
    }

    method MarkServiceStopped(svc: Name, now: Time)
      requires svc in services
      modifies this
      ensures State() == MarkStopped(old(State()), svc, now)
    {
      services := services[svc := services[svc].(status := Stopped, activeSession := None, inflight := 0, lastStopped := Some(now))];
      var d := services[svc].def.device;
      if d in devices {
        devices := devices[d := devices[d].(running := devices[d].running - {svc})];
      }
    }

    method SyncStatusFromExternalLeases(svc: Name)
      requires svc in services
      modifies this`services
      ensures State() == PutService(old(State()), svc, Synced(old(services[svc])))
    {
      var rt := services[svc];
      if rt.status in {Processing, Starting, Stopping} {
        services := services[svc := rt];
        return;
      }
      if rt.leases != map[] {
        rt := rt.(status := External);
      } else if rt.status == External {
        rt := rt.(status := Idle);
      }
      services := services[svc := rt];
    }

    method PruneDeviceReservedSlots(d: Name, now: Time)
      modifies this`devices
      ensures State() == Prune(old(State()), d, now)
    {
      if d !in devices {
        return;
      }
      var slots := devices[d].slots;
      var stale := set k | k in slots && slots[k] <= now;
      while stale != {}
        invariant d in devices && slots == old(devices[d].slots)
        invariant stale <= set k | k in slots && slots[k] <= now
        invariant devices == old(devices)[d := old(devices[d]).(slots := devices[d].slots)]
        invariant devices[d].slots == map k | k in slots && (slots[k] > now || k in stale) :: slots[k]
        decreases |stale|
      {
        var k :| k in stale;
        devices := devices[d := devices[d].(slots := devices[d].slots - {k})];
        stale := stale - {k};
      }
      assert devices[d].slots == LiveSlots(slots, now);
    }

    method ReleaseDeviceSlotForLease(svc: Name, lease: LeaseId)
      requires svc in services
      modifies this`devices
      ensures State() == SlotReleased(old(State()), svc, lease)
    {
      var d := services[svc].def.device;
      if d in devices {
        devices := devices[d := devices[d].(slots := devices[d].slots - {(svc, lease)})];
      }
    }

    // Slots in use, and how many there are; a device without a table counts as one free slot.
    method DeviceSlotUsage(d: Name, now: Time) returns (used: int, most: int)
      modifies this`devices
      ensures State() == Prune(old(State()), d, now)
      ensures used < most <==> HasFreeSlot(State(), d)
      ensures d in devices ==> used == Used(State(), d) && most == devices[d].def.maxConcurrency
    {
      PruneDeviceReservedSlots(d, now);
      if d !in devices {
        return 0, 1;
      }
      return devices[d].active + |devices[d].slots|, devices[d].def.maxConcurrency;
    }

    method CanAcceptProxyWork(d: Name, now: Time) returns (ok: bool)
      modifies this`devices
      ensures (State(), ok) == CanAccept(old(State()), d, now)
    {
      var used, most := DeviceSlotUsage(d, now);
      return used < most;
    }

    method ExternalReserveSlotReady(d: Name, svc: Name, lease: LeaseId, t1: Time, t2: Time) returns (ready: bool)
      modifies this`devices
      ensures (State(), ready) == ReserveReady(old(State()), d, svc, lease, t1, t2)
    {
      PruneDeviceReservedSlots(d, t1);
      if d in devices && (svc, lease) in devices[d].slots {
        return true;
      }
      var used, most := DeviceSlotUsage(d, t2);
      return used < most;
    }

    method AbortProxySessionDeviceBusy(d: Name, sid: SessionId, now: Time) returns (aborted: bool)
      requires sid in sessions
      modifies this
      ensures (State(), aborted) == AbortIfBusy(old(State()), d, sid, now)
    {
      if sessions[sid].status != Queued {
        return false;
      }
      var ok := CanAcceptProxyWork(d, now);
      if ok {
        return false;
      }
      sessions := sessions[sid := sessions[sid].(status := Failed, finishedAt := Some(now))];
      return true;
    }

    method DropLease(svc: Name, lease: LeaseId)
      requires svc in services
      modifies this
      ensures State() == SlotReleased(PutService(old(State()), svc, old(services)[svc].(leases := old(services)[svc].leases - {lease})), svc, lease)
    {
      services := services[svc := services[svc].(leases := services[svc].leases - {lease})];
      ReleaseDeviceSlotForLease(svc, lease);
    }

    method ReleaseExternalLease(svc: Name, lease: LeaseId)
      requires svc in services
      modifies this
      ensures State() == Release(old(State()), svc, lease)
    {
      services := services[svc := services[svc].(leases := services[svc].leases - {lease})];
      ReleaseDeviceSlotForLease(svc, lease);
      SyncStatusFromExternalLeases(svc);
    }
  
    // Drops the leases of one service that have run out, with their slots.
    method ServiceHasExternalActivity(svc: Name, now: Time) returns (active: bool)
      requires svc in services
      modifies this
      ensures State() == Sweep(old(State()), {svc}, now)
      ensures active == HasExternalActivity(old(State()), svc, now)
    {
      ghost var s := State();
      var leases := services[svc].leases;
      var stale := set l | l in leases && leases[l] <= now;
      NoneSweptYet(s, svc, now);
      while stale != {}
        invariant stale <= set l | l in leases && leases[l] <= now
        invariant State() == PartlySwept(s, svc, stale, now)
        decreases |stale|
      {
        var l :| l in stale;
        SweepOneLease(s, svc, stale, l, now);
        DropLease(svc, l);
        stale := stale - {l};
      }
      SweptAll(s, svc, now);
      SyncStatusFromExternalLeases(svc);
      return services[svc].leases != map[];
    }

    method FailQueuedSessionsOnDevice(d: Name, now: Time)
      modifies this
      ensures State() == FailQueued(old(State()), d, now)
    {
      ghost var s := State();
      var todo := sessions.Keys;
      NoneFailedYet(s, d, now);
      while todo != {}
        invariant todo <= s.sessions.Keys
        invariant State() == PartlyFailed(s, d, s.sessions.Keys - todo, now)
        decreases |todo|
      {
        var sid :| sid in todo;
        FailOne(s, d, s.sessions.Keys - todo, sid, now);
        assert s.sessions.Keys - todo + {sid} == s.sessions.Keys - (todo - {sid});
        FailIfQueued(d, sid, now);
        todo := todo - {sid};
      }
      AllFailed(s, d, now);
    }

    // One turn of that loop.
    method FailIfQueued(d: Name, sid: SessionId, now: Time)
      requires sid in sessions
      modifies this
      ensures State() == FailStep(old(State()), d, sid, now)
    {
      var rec := sessions[sid];
      if rec.status != Queued || rec.service !in services || services[rec.service].def.device != d {
        return;
      }
      var rt := services[rec.service];
      services := services[rec.service := rt.(queueSize := if rt.queueSize - 1 < 0 then 0 else rt.queueSize - 1)];
      sessions := sessions[sid := rec.(status := Failed, finishedAt := Some(now))];
    }

    method TouchExternalLease(svc: Name, lease: LeaseId, expires: Time, reserve: bool, t1: Time, t2: Time)
      returns (err: Option<LeaseError>)
      requires svc in services
      modifies this
      ensures (State(), err) == Touch(old(State()), svc, lease, expires, reserve, t1, t2)
    {
      var d := services[svc].def.device;
      if reserve && d !in devices {
        return Some(NoDeviceTable);
      }
      if d in devices {
        PruneDeviceReservedSlots(d, t1);
      }
      if d in devices && (svc, lease) in devices[d].slots {
        devices := devices[d := devices[d].(slots := devices[d].slots[(svc, lease) := expires])];
      }
      if reserve && d in devices && (svc, lease) !in devices[d].slots {
        var used, most := DeviceSlotUsage(d, t2);
        if used >= most {
          return Some(DeviceOccupied);
        }
        devices := devices[d := devices[d].(slots := devices[d].slots[(svc, lease) := expires])];
      }
      StoreLease(svc, lease, expires, t2);
      return None;
    }

    // The end of a touch, once the slot question is settled.
    method StoreLease(svc: Name, lease: LeaseId, expires: Time, now: Time)
      requires svc in services
      modifies this
      ensures State() == RecordLease(old(State()), svc, lease, expires, now)
    {
      var d := services[svc].def.device;
      services := services[svc := services[svc].(leases := services[svc].leases[lease := expires])];
      if d in devices && devices[d].def.maxConcurrency == 1 && (svc, lease) in devices[d].slots {
        FailQueuedSessionsOnDevice(d, now);
      }
      SyncStatusFromExternalLeases(svc);
    }

    method CleanupExpired(now: Time)
      modifies this
      ensures State() == Cleanup(old(State()), now)
    {
      ghost var s := State();
      var names := services.Keys;
      SweptNone(s, now);
      while names != {}
        invariant names <= s.services.Keys
        invariant State() == Sweep(s, s.services.Keys - names, now)
        decreases |names|
      {
        var n :| n in names;
        SweepOneMore(s, s.services.Keys - names, n, now);
        var active := ServiceHasExternalActivity(n, now);
        assert s.services.Keys - names + {n} == s.services.Keys - (names - {n});
        names := names - {n};
      }
      assert s.services.Keys - {} == s.services.Keys;
      ExpireOldSessions(now);
    }

    // The second half of the cleanup: finished and failed sessions past their time to live.
    method ExpireOldSessions(now: Time)
      modifies this
      ensures State() == ExpireSessions(old(State()), now)
    {
      ghost var s := State();
      var todo := sessions.Keys;
      NoneExpiredYet(s, now);
      while todo != {}
        invariant todo <= s.sessions.Keys
        invariant State() == PartlyExpired(s, todo, now)
        decreases |todo|
      {
        var sid :| sid in todo;
        ExpireOne(s, todo, sid, now);
        ExpireIfOld(sid, now);
        todo := todo - {sid};
      }
      AllExpired(s, now);
    }

    // One turn of that loop.
    method ExpireIfOld(sid: SessionId, now: Time)
      requires sid in sessions
      modifies this
      ensures State() == ExpireStep(old(State()), sid, now)
    {
      var rec := sessions[sid];
      if rec.status !in {Finished, Failed} || rec.finishedAt.None? || rec.service !in services {
        return;
      }
      if now - rec.finishedAt.value < services[rec.service].def.resultTtl * SECOND {
        return;
      }
      sessions := sessions[sid := rec.(status := Expired)];
      results := results - {sid};
    }
  }

  // -- expiring sessions one by one -------------------------------------------------------

  function ExpireStep(s: Store, sid: SessionId, now: Time): Store {
    if Outlived(s, sid, now)
    then PutSession(s, sid, s.sessions[sid].(status := Expired)).(results := s.results - {sid})
    else s
  }

  // The sessions still to be looked at are as they were.
  function PartlyExpired(s: Store, todo: set<SessionId>, now: Time): Store {
    s.(sessions := map sid | sid in s.sessions ::
         if sid !in todo && Outlived(s, sid, now) then s.sessions[sid].(status := Expired) else s.sessions[sid],
       results := map sid | sid in s.results && (sid in todo || !Outlived(s, sid, now)) :: s.results[sid])
  }

  lemma NoneExpiredYet(s: Store, now: Time)
    ensures PartlyExpired(s, s.sessions.Keys, now) == s
  {
    assert PartlyExpired(s, s.sessions.Keys, now).sessions == s.sessions;
    assert PartlyExpired(s, s.sessions.Keys, now).results == s.results;
  }

  lemma AllExpired(s: Store, now: Time)
    ensures PartlyExpired(s, {}, now) == ExpireSessions(s, now)
  {
    assert PartlyExpired(s, {}, now).sessions == ExpireSessions(s, now).sessions;
    assert PartlyExpired(s, {}, now).results == ExpireSessions(s, now).results;
  }

  lemma ExpireOne(s: Store, todo: set<SessionId>, sid: SessionId, now: Time)
    requires sid in s.sessions && sid in todo
    ensures ExpireStep(PartlyExpired(s, todo, now), sid, now) == PartlyExpired(s, todo - {sid}, now)
  {
    var m, r := PartlyExpired(s, todo, now), PartlyExpired(s, todo - {sid}, now);
    assert Outlived(m, sid, now) == Outlived(s, sid, now);
    if Outlived(s, sid, now) {
      assert m.sessions[sid := m.sessions[sid].(status := Expired)] == r.sessions;
      assert m.results - {sid} == r.results;
    } else {
      assert m.sessions == r.sessions;
      assert m.results == r.results;
    }
  }

  // -- failing queued sessions one by one -------------------------------------------------

  // Queued sessions on the device have failed as far as they are in done.
  function PartlyFailed(s: Store, d: Name, done: set<SessionId>, now: Time): Store {
    s.(sessions := map sid | sid in s.sessions ::
         if sid in done && QueuedOn(s, d, sid) then FailedAt(s.sessions[sid], now) else s.sessions[sid],
       services := map n | n in s.services ::
         if s.services[n].def.device == d
         then s.services[n].(queueSize := Drained(s.services[n].queueSize, |QueuedFor(s, n) * done|))
         else s.services[n])
  }

  lemma NoneFailedYet(s: Store, d: Name, now: Time)
    ensures PartlyFailed(s, d, s.sessions.Keys - s.sessions.Keys, now) == s
  {
    forall n
      ensures QueuedFor(s, n) * (s.sessions.Keys - s.sessions.Keys) == {}
    {
    }
    assert PartlyFailed(s, d, s.sessions.Keys - s.sessions.Keys, now).services == s.services;
    assert PartlyFailed(s, d, s.sessions.Keys - s.sessions.Keys, now).sessions == s.sessions;
  }

  lemma AllFailedService(s: Store, d: Name, now: Time, n: Name)
    requires n in s.services
    ensures PartlyFailed(s, d, s.sessions.Keys - {}, now).services[n] == FailQueued(s, d, now).services[n]
  {
    assert QueuedFor(s, n) * (s.sessions.Keys - {}) == QueuedFor(s, n);
  }

  lemma AllFailedSessions(s: Store, d: Name, now: Time)
    ensures PartlyFailed(s, d, s.sessions.Keys - {}, now).sessions == FailQueued(s, d, now).sessions
  {
  }

  lemma AllFailed(s: Store, d: Name, now: Time)
    ensures PartlyFailed(s, d, s.sessions.Keys - {}, now) == FailQueued(s, d, now)
  {
    AllFailedSessions(s, d, now);
    forall n | n in s.services
      ensures PartlyFailed(s, d, s.sessions.Keys - {}, now).services[n] == FailQueued(s, d, now).services[n]
    {
      AllFailedService(s, d, now, n);
    }
    assert PartlyFailed(s, d, s.sessions.Keys - {}, now).services == FailQueued(s, d, now).services;
  }

  // One session more is looked at.
  lemma QueuedForMore(s: Store, n: Name, done: set<SessionId>, sid: SessionId)
    requires sid in s.sessions && sid !in done
    ensures |QueuedFor(s, n) * (done + {sid})| ==
            |QueuedFor(s, n) * done| + if s.sessions[sid].status == Queued && s.sessions[sid].service == n then 1 else 0
  {
    if s.sessions[sid].status == Queued && s.sessions[sid].service == n {
      assert QueuedFor(s, n) * (done + {sid}) == QueuedFor(s, n) * done + {sid};
    } else {
      assert QueuedFor(s, n) * (done + {sid}) == QueuedFor(s, n) * done;
    }
  }

  function FailStep(s: Store, d: Name, sid: SessionId, now: Time): Store {
    if QueuedOn(s, d, sid) then
      var n := s.sessions[sid].service;
      var rt := s.services[n];
      PutSession(PutService(s, n, rt.(queueSize := if rt.queueSize - 1 < 0 then 0 else rt.queueSize - 1)), sid,
                 FailedAt(s.sessions[sid], now))
    else s
  }

  lemma DrainedOnce(queueSize: int, n: nat)
    ensures Drained(queueSize, n + 1) == if Drained(queueSize, n) - 1 < 0 then 0 else Drained(queueSize, n) - 1
  {
  }

  lemma FailOneSession(s: Store, d: Name, done: set<SessionId>, sid: SessionId, now: Time)
    requires sid in s.sessions && sid !in done
    ensures var m, r := PartlyFailed(s, d, done, now), PartlyFailed(s, d, done + {sid}, now);
            && QueuedOn(m, d, sid) == QueuedOn(s, d, sid)
            && r.sessions == if QueuedOn(s, d, sid) then m.sessions[sid := FailedAt(m.sessions[sid], now)] else m.sessions
  {
  }

  lemma FailOneService(s: Store, d: Name, done: set<SessionId>, sid: SessionId, now: Time, n: Name)
    requires sid in s.sessions && sid !in done && n in s.services
    ensures var m, r := PartlyFailed(s, d, done, now), PartlyFailed(s, d, done + {sid}, now);
            r.services[n] == if QueuedOn(s, d, sid) && s.sessions[sid].service == n
                             then m.services[n].(queueSize := if m.services[n].queueSize - 1 < 0 then 0 else m.services[n].queueSize - 1)
                             else m.services[n]
  {
    QueuedForMore(s, n, done, sid);
    DrainedOnce(s.services[n].queueSize, |QueuedFor(s, n) * done|);
  }

  lemma FailOneServices(s: Store, d: Name, done: set<SessionId>, sid: SessionId, now: Time)
    requires sid in s.sessions && sid !in done
    ensures var m, r := PartlyFailed(s, d, done, now), PartlyFailed(s, d, done + {sid}, now);
            r.services == if QueuedOn(s, d, sid)
                          then var n := s.sessions[sid].service;
                               m.services[n := m.services[n].(queueSize := if m.services[n].queueSize - 1 < 0 then 0 else m.services[n].queueSize - 1)]
                          else m.services
  {
    var m, r := PartlyFailed(s, d, done, now), PartlyFailed(s, d, done + {sid}, now);
    forall n | n in s.services
      ensures r.services[n] == if QueuedOn(s, d, sid) && s.sessions[sid].service == n
                               then m.services[n].(queueSize := if m.services[n].queueSize - 1 < 0 then 0 else m.services[n].queueSize - 1)
                               else m.services[n]
    {
      FailOneService(s, d, done, sid, now, n);
    }
  }

  lemma FailOne(s: Store, d: Name, done: set<SessionId>, sid: SessionId, now: Time)
    requires sid in s.sessions && sid !in done
    ensures sid in PartlyFailed(s, d, done, now).sessions
    ensures FailStep(PartlyFailed(s, d, done, now), d, sid, now) == PartlyFailed(s, d, done + {sid}, now)
  {
    FailOneSession(s, d, done, sid, now);
    FailOneServices(s, d, done, sid, now);
  }

  // -- sweeping services one by one -------------------------------------------------------

  lemma SweptNone(s: Store, now: Time)
    ensures Sweep(s, s.services.Keys - s.services.Keys, now) == s
  {
    forall d | d in s.devices
      ensures SweptDevice(s, d, {}, now).slots == s.devices[d].slots
    {
    }
    assert s.services.Keys - s.services.Keys == {};
    assert Sweep(s, {}, now).devices == s.devices;
    assert Sweep(s, {}, now).services == s.services;
  }

  lemma SweepOneMoreDevice(s: Store, done: set<Name>, n: Name, now: Time, d: Name)
    requires n in s.services && n !in done && d in s.devices
    ensures SweptDevice(Sweep(s, done, now), d, {n}, now) == SweptDevice(s, d, done + {n}, now)
  {
    assert SweptDevice(Sweep(s, done, now), d, {n}, now).slots == SweptDevice(s, d, done + {n}, now).slots;
  }

  lemma SweepOneMore(s: Store, done: set<Name>, n: Name, now: Time)
    requires n in s.services && n !in done
    ensures Sweep(Sweep(s, done, now), {n}, now) == Sweep(s, done + {n}, now)
  {
    forall d | d in s.devices
      ensures SweptDevice(Sweep(s, done, now), d, {n}, now) == SweptDevice(s, d, done + {n}, now)
    {
      SweepOneMoreDevice(s, done, n, now, d);
    }
    assert Sweep(Sweep(s, done, now), {n}, now).devices == Sweep(s, done + {n}, now).devices;
    assert Sweep(Sweep(s, done, now), {n}, now).services == Sweep(s, done + {n}, now).services;
  }

  // -- dropping leases one by one ---------------------------------------------------------

  predicate Gone(leases: map<LeaseId, Time>, stale: set<LeaseId>, l: LeaseId, now: Time) {
    l in leases && leases[l] <= now && l !in stale
  }

  function LeasesLeft(leases: map<LeaseId, Time>, stale: set<LeaseId>, now: Time): map<LeaseId, Time> {
    map l | l in leases && !Gone(leases, stale, l, now) :: leases[l]
  }

  function SlotsLeft(slots: map<SlotKey, Time>, svc: Name, leases: map<LeaseId, Time>, stale: set<LeaseId>, now: Time)
    : map<SlotKey, Time>
  {
    map k | k in slots && !(k.0 == svc && Gone(leases, stale, k.1, now)) :: slots[k]
  }

  // The store when of svc's leases that ran out only the listed ones are still there.
  function PartlySwept(s: Store, svc: Name, stale: set<LeaseId>, now: Time): Store
    requires svc in s.services
  {
    var rt := s.services[svc];
    var d := rt.def.device;
    var s1 := PutService(s, svc, rt.(leases := LeasesLeft(rt.leases, stale, now)));
    if d in s.devices then PutSlots(s1, d, SlotsLeft(s.devices[d].slots, svc, rt.leases, stale, now)) else s1
  }

  lemma OneLeaseLess(leases: map<LeaseId, Time>, slots: map<SlotKey, Time>, svc: Name, stale: set<LeaseId>, l: LeaseId, now: Time)
    requires l in stale && l in leases && leases[l] <= now
    ensures LeasesLeft(leases, stale, now) - {l} == LeasesLeft(leases, stale - {l}, now)
    ensures SlotsLeft(slots, svc, leases, stale, now) - {(svc, l)} == SlotsLeft(slots, svc, leases, stale - {l}, now)
  {
  }

  lemma SweepOneLease(s: Store, svc: Name, stale: set<LeaseId>, l: LeaseId, now: Time)
    requires svc in s.services && l in stale && l in s.services[svc].leases && s.services[svc].leases[l] <= now
    ensures var m := PartlySwept(s, svc, stale, now);
            svc in m.services &&
            SlotReleased(PutService(m, svc, m.services[svc].(leases := m.services[svc].leases - {l})), svc, l)
            == PartlySwept(s, svc, stale - {l}, now)
  {
    var rt := s.services[svc];
    var d := rt.def.device;
    OneLeaseLess(rt.leases, if d in s.devices then s.devices[d].slots else map[], svc, stale, l, now);
  }

  lemma NoneSweptYet(s: Store, svc: Name, now: Time)
    requires svc in s.services
    ensures PartlySwept(s, svc, (set l | l in s.services[svc].leases && s.services[svc].leases[l] <= now), now) == s
  {
    var rt := s.services[svc];
    var all := set l | l in rt.leases && rt.leases[l] <= now;
    assert LeasesLeft(rt.leases, all, now) == rt.leases;
    assert s.services[svc := rt] == s.services;
    if rt.def.device in s.devices {
      var dev := s.devices[rt.def.device];
      assert SlotsLeft(dev.slots, svc, rt.leases, all, now) == dev.slots;
      assert s.devices[rt.def.device := dev] == s.devices;
    }
  }

  lemma SlotsLeftAre(s: Store, svc: Name, d: Name, now: Time)
    requires svc in s.services && d in s.devices
    ensures SweptDevice(s, d, {svc}, now).slots ==
            if s.services[svc].def.device == d then SlotsLeft(s.devices[d].slots, svc, s.services[svc].leases, {}, now) else s.devices[d].slots
  {
  }

  lemma SweptAll(s: Store, svc: Name, now: Time)
    requires svc in s.services
    ensures var m := PartlySwept(s, svc, {}, now);
            svc in m.services && PutService(m, svc, Synced(m.services[svc])) == Sweep(s, {svc}, now)
  {
    var rt := s.services[svc];
    var m := PartlySwept(s, svc, {}, now);
    assert LeasesLeft(rt.leases, {}, now) == LiveLeases(rt.leases, now);
    forall e | e in s.devices
      ensures m.devices[e] == SweptDevice(s, e, {svc}, now)
    {
      SlotsLeftAre(s, svc, e, now);
    }
    assert m.devices == Sweep(s, {svc}, now).devices;
    assert PutService(m, svc, Synced(m.services[svc])).services == Sweep(s, {svc}, now).services;
  }
}
