/** The stretches of scheduler code that run between two awaits, as functions of the store. */
module HubScheduler {
  import opened Wrappers
  import opened HubTypes
  import opened HubStore
  import opened Seqs

  function CountUp(s: Store, d: Name): Store {
    if d in s.devices then PutDevice(s, d, s.devices[d].(active := s.devices[d].active + 1)) else s
  }

  // The service and the device take the request on.
  function Claimed(s: Store, d: Name, svc: Name, sid: SessionId): Store
    requires svc in s.services
  {
    var rt := s.services[svc];
    CountUp(PutService(s, svc, rt.(inflight := rt.inflight + 1, activeSession := Some(sid), status := Processing)), d)
  }

  // A request is about to be forwarded: counters up, service PROCESSING, session PROCESSING.
  function Dispatched(s: Store, d: Name, svc: Name, sid: SessionId, now: Time): Store
    requires svc in s.services && sid in s.sessions
  {
    var s1 := Claimed(s, d, svc, sid);
    PutSession(s1, sid, s1.sessions[sid].(status := SessionProcessing, startedAt := Some(now)))
  }

  function Completed(s: Store, svc: Name, sid: SessionId, payload: Payload, now: Time): Store
    requires svc in s.services && sid in s.sessions
  {
    var s1 := PutSession(s, sid, s.sessions[sid].(status := Finished, finishedAt := Some(now)));
    PutService(s1, svc, s1.services[svc].(lastUsed := Some(now))).(results := s1.results[sid := payload])
  }

  // The except clause.
  function Broken(s: Store, svc: Name, sid: SessionId, now: Time): Store
    requires svc in s.services && sid in s.sessions
  {
    var s1 := PutSession(s, sid, FailedAt(s.sessions[sid], now));
    PutService(s1, svc, s1.services[svc].(lastUsed := Some(now)))
  }

  function Less1(n: int): int {
    if n > 0 then n - 1 else n
  }

  // The finally clause: counters down whenever they are positive, whoever raised them.
  function CountersDown(s: Store, d: Name, svc: Name): Store
    requires svc in s.services
  {
    var rt := s.services[svc];
    var s1 := PutService(s, svc, rt.(inflight := Less1(rt.inflight)));
    if d in s1.devices then PutDevice(s1, d, s1.devices[d].(active := Less1(s1.devices[d].active))) else s1
  }

  function Settled(s: Store, svc: Name, sid: SessionId, now: Time): Store
    requires svc in s.services && sid in s.sessions
  {
    var rt := s.services[svc];
    if rt.inflight != 0 then s
    else if s.sessions[sid].status == Failed then PutService(s, svc, rt.(activeSession := None, status := Error))
    else
      var swept := Sweep(PutService(s, svc, rt.(activeSession := None)), {svc}, now);
      PutService(swept, svc,
        swept.services[svc].(status := if HasExternalActivity(s, svc, now) then External else Idle))
  }

  function Finally(s: Store, d: Name, svc: Name, sid: SessionId, now: Time): Store
    requires svc in s.services && sid in s.sessions
  {
    Settled(CountersDown(s, d, svc), svc, sid, now)
  }

  // -- memory -----------------------------------------------------------------------------

  function Memory(services: map<Name, ServiceRuntime>, n: Name): int {
    if n in services then services[n].def.memory else 0
  }

  // The device memory the running services use, summed over the configured names.
  function Load(names: seq<Name>, running: set<Name>, services: map<Name, ServiceRuntime>): int {
    if names == [] then 0
    else (if names[0] in running then Memory(services, names[0]) else 0) + Load(names[1..], running, services)
  }

  // -- reclaim ----------------------------------------------------------------------------

  // The services whose leases the candidate selection looks at, expiring old ones.
  function Probed(s: Store, d: Name, target: Name): set<Name>
    requires d in s.devices
  {
    set n | n in s.devices[d].running && n in s.services && n != target && s.services[n].inflight <= 0
  }

  predicate Eligible(s: Store, d: Name, target: Name, n: Name)
    requires d in s.devices
  {
    && n in s.devices[d].running && n in s.services && n != target
    && s.services[n].inflight <= 0 && s.services[n].leases == map[]
    && s.services[n].status in {Idle, Error}
  }

  function ModeRank(mode: StartupMode): int {
    if mode == Once then 0 else 1
  }

  // A service never used counts as used before every date.
  predicate UsedBefore(a: Option<Time>, b: Option<Time>) {
    b.Some? && (a.None? || a.value < b.value)
  }

  // What the two orders look at; a name that is not configured sorts as an old ALWAYS service.
  function ModeOf(services: map<Name, ServiceRuntime>, n: Name): StartupMode {
    if n in services then services[n].def.mode else Always
  }

  function LastUse(services: map<Name, ServiceRuntime>, n: Name): Option<Time> {
    if n in services then services[n].lastUsed else None
  }

  // The reclaim order: ONCE services first, then the least recently used.
  predicate ReclaimedBefore(services: map<Name, ServiceRuntime>, a: Name, b: Name) {
    ModeRank(ModeOf(services, a)) < ModeRank(ModeOf(services, b))
    || (ModeOf(services, a) == ModeOf(services, b) && UsedBefore(LastUse(services, a), LastUse(services, b)))
  }

  // _select_reclaim_candidates, for one order in which Python may iterate the running set.
  function Candidates(s: Store, d: Name, target: Name, order: seq<Name>): seq<Name>
    requires d in s.devices
  {
    SortBy((a, b) => ReclaimedBefore(s.services, a, b), Filter(n => Eligible(s, d, target, n), order))
  }

  function BusyPeer(s: Store, d: Name, target: Name): bool {
    exists n :: n in s.services && s.services[n].def.device == d && n != target && s.services[n].inflight > 0
  }

  // -- restore ----------------------------------------------------------------------------

  predicate Restorable(s: Store, d: Name, now: Time, n: Name)
    requires d in s.devices
  {
    && n in s.services && s.services[n].status == Stopped && s.services[n].lastUsed.Some?
    && now - s.services[n].lastUsed.value <= s.devices[d].def.resumeWindow * SECOND
  }

  // The restore order: most recently used first, ALWAYS before ONCE.
  predicate RestoredBefore(services: map<Name, ServiceRuntime>, a: Name, b: Name) {
    UsedBefore(LastUse(services, b), LastUse(services, a))
    || (LastUse(services, a) == LastUse(services, b) && ModeRank(ModeOf(services, a)) > ModeRank(ModeOf(services, b)))
  }

  function RestoreOrder(s: Store, d: Name, now: Time, reclaimed: seq<Name>): seq<Name>
    requires d in s.devices
  {
    SortBy((a, b) => RestoredBefore(s.services, a, b), Filter(n => Restorable(s, d, now, n), reclaimed))
  }
}
