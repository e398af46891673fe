/** What the scheduler's stretches of code keep in the store: the invariants, and that nothing
    but a dispatch makes a device busier. */
module HubMoves {
  import opened Wrappers
  import opened HubTypes
  import opened HubStore
  import opened HubStoreLaws
  import opened HubScheduler

  // What a stretch of code may do: own is the device whose request count it may lower, gain
  // the service it may report as started.
  datatype Scope = Scope(own: Option<Name>, gain: Option<Name>)

  function Gains(sc: Scope): set<Name> {
    if sc.gain.Some? then {sc.gain.value} else {}
  }

  // A device after a step: fewer slots, no more requests counted, no new restore notes but of
  // the device's own services, no new running service but the one the scope names.
  ghost predicate DeviceMoves(services: Services, e: Name, a: DeviceRuntime, b: DeviceRuntime, sc: Scope) {
    && b.def == a.def && SlotsWithin(b.slots, a.slots)
    && b.active <= a.active && (a.active >= 0 ==> b.active >= 0)
    && (sc.own != Some(e) ==> b.active == a.active)
    && b.running <= a.running + Gains(sc)
    && PendingFine(services, e, b.pending, a.pending)
  }

  ghost predicate Belong(services: Services, d: Name, names: seq<Name>) {
    forall n :: n in names ==> n in services && services[n].def.device == d
  }

  ghost predicate PendingFine(services: Services, d: Name, pending: map<SessionId, seq<Name>>, was: map<SessionId, seq<Name>>) {
    forall sid :: sid in pending ==> (sid in was && pending[sid] == was[sid]) || Belong(services, d, pending[sid])
  }

  ghost predicate DevicesMove(services: Services, devices: Devices, r: Devices, sc: Scope) {
    && devices.Keys == r.Keys
    && forall e :: e in devices ==> DeviceMoves(services, e, devices[e], r[e], sc)
  }

  ghost predicate SessionsStay(sessions: Sessions, r: Sessions) {
    forall sid :: sid in sessions ==> sid in r && r[sid].service == sessions[sid].service
  }

  ghost predicate Moves(s: Store, r: Store, sc: Scope) {
    && SameServices(s.services, r.services)
    && SessionsStay(s.sessions, r.sessions)
    && DevicesMove(s.services, s.devices, r.devices, sc)
    && (Good(s) ==> Good(r))
  }

  lemma DevicesChain(services: Services, after: Services, devices: Devices, m: Devices, r: Devices, sc: Scope)
    requires SameServices(services, after)
    requires DevicesMove(services, devices, m, sc) && DevicesMove(after, m, r, sc)
    ensures DevicesMove(services, devices, r, sc)
  {
    forall e | e in devices
      ensures DeviceMoves(services, e, devices[e], r[e], sc)
    {
      assert DeviceMoves(services, e, devices[e], m[e], sc);
      assert DeviceMoves(after, e, m[e], r[e], sc);
      assert forall names :: Belong(after, e, names) ==> Belong(services, e, names);
    }
  }

  lemma MovesChain(s: Store, m: Store, r: Store, sc: Scope)
    requires Moves(s, m, sc) && Moves(m, r, sc)
    ensures Moves(s, r, sc)
  {
    DevicesChain(s.services, m.services, s.devices, m.devices, r.devices, sc);
  }

  lemma QuietMoves(s: Store, r: Store, sc: Scope)
    requires Quiet(s, r) && SessionsStay(s.sessions, r.sessions)
    ensures Moves(s, r, sc)
  {
    if Good(s) {
      QuietKeeps(s, r);
    }
    forall e | e in s.devices
      ensures DeviceMoves(s.services, e, s.devices[e], r.devices[e], sc)
    {
      assert SlotsWithin(r.devices[e].slots, s.devices[e].slots);
    }
  }

  lemma SameMoves(s: Store, sc: Scope)
    ensures Moves(s, s, sc)
  {
    forall e | e in s.devices
      ensures DeviceMoves(s.services, e, s.devices[e], s.devices[e], sc)
    {
    }
  }

  lemma SweepMoves(s: Store, names: set<Name>, now: Time, sc: Scope)
    ensures Moves(s, Sweep(s, names, now), sc)
  {
    SweepSlots(s, names, now);
    if Good(s) {
      SweepKeeps(s, names, now);
    }
    forall e | e in s.devices
      ensures DeviceMoves(s.services, e, s.devices[e], Sweep(s, names, now).devices[e], sc)
    {
      assert SlotsWithin(Sweep(s, names, now).devices[e].slots, s.devices[e].slots);
    }
  }

  // -- device records ---------------------------------------------------------------------

  // A device record that keeps its slots and definition, counts no more requests, and runs
  // only services that are its own and not STOPPED.
  ghost predicate DeviceRetouch(s: Store, d: Name, rt: DeviceRuntime)
  {
    && d in s.devices
    && rt.def == s.devices[d].def && rt.slots == s.devices[d].slots
    && (s.devices[d].active >= 0 ==> rt.active >= 0)
    && forall n :: n in rt.running ==>
         (n in s.devices[d].running || (n in s.services && s.services[n].def.device == d && s.services[n].status != Stopped))
  }

  lemma RetouchCoupled(s: Store, d: Name, rt: DeviceRuntime)
    requires DeviceRetouch(s, d, rt) && Coupled(s.devices, s.services)
    ensures Coupled(s.devices[d := rt], s.services)
  {
    var r := s.devices[d := rt];
    forall e, k | e in r && k in r[e].slots
      ensures SlotHasLease(s.services, e, k, r[e].slots[k])
    {
      assert SlotHasLease(s.services, e, k, s.devices[e].slots[k]);
    }
  }

  lemma RetouchBounded(s: Store, d: Name, rt: DeviceRuntime)
    requires DeviceRetouch(s, d, rt) && SlotsBounded(s.devices)
    ensures SlotsBounded(s.devices[d := rt])
  {
    forall e | e in s.devices
      ensures DeviceBounded(s.devices[d := rt][e])
    {
      assert DeviceBounded(s.devices[e]);
    }
  }

  lemma RetouchGood(s: Store, d: Name, rt: DeviceRuntime)
    requires DeviceRetouch(s, d, rt) && Good(s)
    ensures Good(PutDevice(s, d, rt))
  {
    RetouchCoupled(s, d, rt);
    RetouchBounded(s, d, rt);
  }

  lemma RetouchMoves(s: Store, d: Name, rt: DeviceRuntime, sc: Scope)
    requires DeviceRetouch(s, d, rt) && rt.running <= s.devices[d].running + Gains(sc)
    requires rt.active == s.devices[d].active || (sc.own == Some(d) && rt.active < s.devices[d].active)
    requires PendingFine(s.services, d, rt.pending, s.devices[d].pending)
    ensures Moves(s, PutDevice(s, d, rt), sc)
  {
    if Good(s) {
      RetouchGood(s, d, rt);
    }
    forall e | e in s.devices
      ensures DeviceMoves(s.services, e, s.devices[e], PutDevice(s, d, rt).devices[e], sc)
    {
    }
  }

  // -- the stretches ----------------------------------------------------------------------

  lemma PutServiceMoves(s: Store, svc: Name, rt: ServiceRuntime, sc: Scope)
    requires svc in s.services
    requires rt.def == s.services[svc].def && rt.leases == s.services[svc].leases
    requires rt.status == Stopped ==> s.services[svc].status == Stopped
    requires rt.status == External ==> s.services[svc].status == External || rt.leases != map[]
    ensures Moves(s, PutService(s, svc, rt), sc)
  {
    PutServiceQuiet(s, svc, rt);
    QuietMoves(s, PutService(s, svc, rt), sc);
  }

  lemma PutSessionMoves(s: Store, sid: SessionId, rec: SessionRecord, sc: Scope)
    requires sid in s.sessions && rec.service == s.sessions[sid].service
    ensures Moves(s, PutSession(s, sid, rec), sc)
  {
    var r := PutSession(s, sid, rec);
    forall e | e in s.devices
      ensures DeviceMoves(s.services, e, s.devices[e], r.devices[e], sc)
    {
    }
  }

  lemma ResultsMove(s: Store, results: map<SessionId, Payload>, sc: Scope)
    ensures Moves(s, s.(results := results), sc)
  {
    SameMoves(s, sc);
  }

  lemma AbortMoves(s: Store, d: Name, sid: SessionId, now: Time, sc: Scope)
    requires sid in s.sessions
    ensures Moves(s, AbortIfBusy(s, d, sid, now).0, sc)
    ensures AbortIfBusy(s, d, sid, now).0.services == s.services
  {
    PruneQuiet(s, d, now);
    var pruned := Prune(s, d, now);
    QuietMoves(s, pruned, sc);
    SameMoves(s, sc);
    var rec := FailedAt(pruned.sessions[sid], now);
    PutSessionMoves(pruned, sid, rec, sc);
    MovesChain(s, pruned, PutSession(pruned, sid, rec), sc);
  }

  lemma CompletedMoves(s: Store, svc: Name, sid: SessionId, payload: Payload, now: Time, sc: Scope)
    requires svc in s.services && sid in s.sessions
    ensures Moves(s, Completed(s, svc, sid, payload, now), sc)
  {
    var rec := s.sessions[sid].(status := Finished, finishedAt := Some(now));
    var s1 := PutSession(s, sid, rec);
    var rt := s1.services[svc].(lastUsed := Some(now));
    var s2 := PutService(s1, svc, rt);
    PutSessionMoves(s, sid, rec, sc);
    PutServiceMoves(s1, svc, rt, sc);
    MovesChain(s, s1, s2, sc);
    ResultsMove(s2, s1.results[sid := payload], sc);
    MovesChain(s, s2, Completed(s, svc, sid, payload, now), sc);
  }

  lemma BrokenMoves(s: Store, svc: Name, sid: SessionId, now: Time, sc: Scope)
    requires svc in s.services && sid in s.sessions
    ensures Moves(s, Broken(s, svc, sid, now), sc)
  {
    var s1 := PutSession(s, sid, FailedAt(s.sessions[sid], now));
    var rt := s1.services[svc].(lastUsed := Some(now));
    PutSessionMoves(s, sid, FailedAt(s.sessions[sid], now), sc);
    PutServiceMoves(s1, svc, rt, sc);
    MovesChain(s, s1, PutService(s1, svc, rt), sc);
  }

  lemma CountersDownMoves(s: Store, d: Name, svc: Name, sc: Scope)
    requires svc in s.services && sc.own == Some(d)
    ensures Moves(s, CountersDown(s, d, svc), sc)
    ensures CountersDown(s, d, svc).sessions == s.sessions
    ensures d in s.devices ==> CountersDown(s, d, svc).devices[d].active == Less1(s.devices[d].active)
  {
    var rt := s.services[svc].(inflight := Less1(s.services[svc].inflight));
    var s1 := PutService(s, svc, rt);
    PutServiceMoves(s, svc, rt, sc);
    if d in s1.devices {
      var dev := s1.devices[d].(active := Less1(s1.devices[d].active));
      RetouchMoves(s1, d, dev, sc);
      MovesChain(s, s1, PutDevice(s1, d, dev), sc);
    }
  }

  lemma SettledMoves(s: Store, svc: Name, sid: SessionId, now: Time, sc: Scope)
    requires svc in s.services && sid in s.sessions
    ensures Moves(s, Settled(s, svc, sid, now), sc)
    ensures Settled(s, svc, sid, now).sessions == s.sessions
  {
    var rt := s.services[svc];
    if rt.inflight != 0 {
      SameMoves(s, sc);
    } else if s.sessions[sid].status == Failed {
      PutServiceMoves(s, svc, rt.(activeSession := None, status := Error), sc);
    } else {
      QuietedMoves(s, svc, now, sc);
    }
  }

  lemma QuietedMoves(s: Store, svc: Name, now: Time, sc: Scope)
    requires svc in s.services
    ensures var rt := s.services[svc];
            var swept := Sweep(PutService(s, svc, rt.(activeSession := None)), {svc}, now);
            var status := if HasExternalActivity(s, svc, now) then External else Idle;
            Moves(s, PutService(swept, svc, swept.services[svc].(status := status)), sc)
  {
    var rt := s.services[svc];
    var s1 := PutService(s, svc, rt.(activeSession := None));
    PutServiceMoves(s, svc, rt.(activeSession := None), sc);
    var swept := Sweep(s1, {svc}, now);
    SweepMoves(s1, {svc}, now, sc);
    MovesChain(s, s1, swept, sc);
    var last := swept.services[svc].(status := if HasExternalActivity(s, svc, now) then External else Idle);
    assert swept.services[svc].leases == LiveLeases(rt.leases, now);
    PutServiceMoves(swept, svc, last, sc);
    MovesChain(s, swept, PutService(swept, svc, last), sc);
  }

  // The finally clause keeps the invariants and takes this request off the device's count.
  lemma FinallyMoves(s: Store, d: Name, svc: Name, sid: SessionId, now: Time, sc: Scope)
    requires svc in s.services && sid in s.sessions && sc.own == Some(d)
    ensures Moves(s, Finally(s, d, svc, sid, now), sc)
    ensures Finally(s, d, svc, sid, now).sessions == s.sessions
    ensures d in s.devices ==> Finally(s, d, svc, sid, now).devices[d].active == Less1(s.devices[d].active)
  {
    CountersDownMoves(s, d, svc, sc);
    var s1 := CountersDown(s, d, svc);
    SettledMoves(s1, svc, sid, now, sc);
    MovesChain(s, s1, Settled(s1, svc, sid, now), sc);
    SettledMoves(s1, svc, sid, now, Scope(None, None));
    if d in s.devices {
      assert DeviceMoves(s1.services, d, s1.devices[d], Settled(s1, svc, sid, now).devices[d], Scope(None, None));
    }
  }

  lemma MarkStartedMoves(s: Store, svc: Name, now: Time, sc: Scope)
    requires svc in s.services && sc.gain == Some(svc)
    ensures Moves(s, MarkStarted(s, svc, now), sc)
    ensures MarkStarted(s, svc, now).sessions == s.sessions
  {
    var d := s.services[svc].def.device;
    var rt := s.services[svc].(status := Idle, lastStarted := Some(now));
    var s1 := PutService(s, svc, rt);
    PutServiceMoves(s, svc, rt, sc);
    if d in s1.devices {
      var dev := s1.devices[d].(running := s1.devices[d].running + {svc});
      RetouchMoves(s1, d, dev, sc);
      MovesChain(s, s1, PutDevice(s1, d, dev), sc);
    }
  }

  lemma StoppedBounded(s: Store, svc: Name, now: Time)
    requires svc in s.services && SlotsBounded(s.devices)
    ensures SlotsBounded(MarkStopped(s, svc, now).devices)
  {
    forall e | e in s.devices
      ensures DeviceBounded(MarkStopped(s, svc, now).devices[e])
    {
      assert DeviceBounded(s.devices[e]);
    }
  }

  lemma StoppedHonest(s: Store, svc: Name, now: Time)
    requires svc in s.services && ExternalHasLease(s.services)
    ensures ExternalHasLease(MarkStopped(s, svc, now).services)
  {
    forall n | n in s.services
      ensures StatusHonest(MarkStopped(s, svc, now).services[n])
    {
      assert StatusHonest(s.services[n]);
    }
  }

  lemma StoppedCoupled(s: Store, svc: Name, now: Time)
    requires svc in s.services && Coupled(s.devices, s.services)
    ensures Coupled(MarkStopped(s, svc, now).devices, MarkStopped(s, svc, now).services)
  {
    var r := MarkStopped(s, svc, now);
    forall e, k | e in r.devices && k in r.devices[e].slots
      ensures SlotHasLease(r.services, e, k, r.devices[e].slots[k])
    {
      assert SlotHasLease(s.services, e, k, s.devices[e].slots[k]);
    }
  }

  lemma StoppedRunning(s: Store, svc: Name, now: Time)
    requires svc in s.services && RunningKnown(s.devices, s.services) && StoppedNotRunning(s.devices, s.services)
    ensures RunningKnown(MarkStopped(s, svc, now).devices, MarkStopped(s, svc, now).services)
    ensures StoppedNotRunning(MarkStopped(s, svc, now).devices, MarkStopped(s, svc, now).services)
  {
  }

  lemma StoppedGood(s: Store, svc: Name, now: Time)
    requires Good(s) && svc in s.services
    ensures Good(MarkStopped(s, svc, now))
  {
    StoppedRunning(s, svc, now);
    StoppedCoupled(s, svc, now);
    StoppedBounded(s, svc, now);
    StoppedHonest(s, svc, now);
  }

  lemma StoppedKeepsLeases(s: Store, svc: Name, now: Time)
    requires svc in s.services
    ensures SameLeases(s.services, MarkStopped(s, svc, now).services)
  {
  }

  lemma StoppedDevices(s: Store, svc: Name, now: Time, sc: Scope)
    requires svc in s.services
    ensures DevicesMove(s.services, s.devices, MarkStopped(s, svc, now).devices, sc)
  {
    forall e | e in s.devices
      ensures DeviceMoves(s.services, e, s.devices[e], MarkStopped(s, svc, now).devices[e], sc)
    {
    }
  }

  lemma MarkStoppedMoves(s: Store, svc: Name, now: Time, sc: Scope)
    requires svc in s.services
    ensures Moves(s, MarkStopped(s, svc, now), sc)
    ensures MarkStopped(s, svc, now).sessions == s.sessions
  {
    if Good(s) {
      StoppedGood(s, svc, now);
    }
    StoppedKeepsLeases(s, svc, now);
    StoppedDevices(s, svc, now, sc);
  }

  lemma CountUpGood(s: Store, d: Name)
    requires Good(s)
    ensures Good(CountUp(s, d))
  {
    if d in s.devices {
      RetouchGood(s, d, s.devices[d].(active := s.devices[d].active + 1));
    }
  }

  ghost predicate OneMore(devices: Devices, r: Devices, d: Name) {
    if d in devices then r == devices[d := devices[d].(active := devices[d].active + 1)] else r == devices
  }

  // A dispatch makes exactly this device count one more request.
  lemma DispatchedCounts(s: Store, d: Name, svc: Name, sid: SessionId, now: Time)
    requires svc in s.services && sid in s.sessions
    ensures var r := Dispatched(s, d, svc, sid, now);
            SameServices(s.services, r.services) && SessionsStay(s.sessions, r.sessions) && OneMore(s.devices, r.devices, d)
  {
  }

  lemma ProcessingGood(s: Store, svc: Name, rt: ServiceRuntime)
    requires svc in s.services && Good(s)
    requires rt.def == s.services[svc].def && rt.leases == s.services[svc].leases && rt.status == Processing
    ensures Good(PutService(s, svc, rt))
  {
    PutServiceMoves(s, svc, rt, Scope(None, None));
  }

  lemma SessionStatusGood(s: Store, sid: SessionId, rec: SessionRecord)
    requires Good(s) && sid in s.sessions && rec.service == s.sessions[sid].service
    ensures Good(PutSession(s, sid, rec))
  {
  }

  lemma ClaimedGood(s: Store, d: Name, svc: Name, sid: SessionId)
    requires svc in s.services && Good(s)
    ensures Good(Claimed(s, d, svc, sid))
  {
    var rt := s.services[svc].(inflight := s.services[svc].inflight + 1, activeSession := Some(sid), status := Processing);
    var s1 := PutService(s, svc, rt);
    assert Claimed(s, d, svc, sid) == CountUp(s1, d);
    ProcessingGood(s, svc, rt);
    CountUpGood(s1, d);
  }

  lemma DispatchedGood(s: Store, d: Name, svc: Name, sid: SessionId, now: Time)
    requires svc in s.services && sid in s.sessions && Good(s)
    ensures Good(Dispatched(s, d, svc, sid, now))
  {
    ClaimedGood(s, d, svc, sid);
    var s1 := Claimed(s, d, svc, sid);
    SessionStatusGood(s1, sid, s1.sessions[sid].(status := SessionProcessing, startedAt := Some(now)));
  }
}
