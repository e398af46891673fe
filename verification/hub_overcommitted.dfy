/** Why starts must not overlap: whenever two stopped services fit on a device one at a time but
    not together, two explicit starts that overlap bring the device over its memory. */
module HubOvercommitted {
  import opened Wrappers
  import opened HubTypes
  import opened HubStore
  import opened HubScheduler
  import opened HubMachine
  import opened HubSteps
  import opened HubSlots
  import opened HubSafety
  import opened HubLoad
  import opened HubClaims
  import opened HubMemory

  // A stopped service of device d, whose start nobody is at.
  ghost predicate Startable(h: Hub, d: Name, svc: Name) {
    && svc in h.store.services && h.store.services[svc].def.device == d && h.store.services[svc].status == Stopped
    && svc !in h.locks
  }

  ghost predicate Watched(h: Hub, d: Name) {
    Tracked(h.cfg, h.store, d) && h.store.devices[d].def.schedulingTimeout > 0
  }

  // Task t is launching svc, for an explicit start.
  ghost predicate Starting(h: Hub, t: TaskId, svc: Name) {
    t in h.tasks && h.tasks[t] == Launching(Explicit(svc)) && svc in h.store.services
  }

  lemma StartAdmitted(h: Hub, t: TaskId, d: Name, svc: Name, m: Moment)
    requires Startable(h, d, svc) && Watched(h, d) && RoomFor(h.cfg, h.store, d, svc)
    ensures var r := AcquireLock(h, t, Explicit(svc), m);
            && Starting(r, t, svc) && r.tasks == h.tasks[t := Launching(Explicit(svc))] && r.locks == h.locks[svc := t]
            && r.cfg == h.cfg && SameUse(h.store, r.store, d) && Watched(r, d)
            && forall n :: n in h.store.services && n != svc ==> r.store.services[n] == h.store.services[n]
  {
    var h1 := SetWaiting(h.(locks := h.locks[svc := t]), d, svc, true);
    RoomSame(h.cfg, h.store, h1.store, d, svc);
    assert AcquireLock(h, t, Explicit(svc), m) == Admit(h1, t, d, Explicit(svc));
  }

  lemma LaunchFinished(h: Hub, t: TaskId, d: Name, svc: Name, m: Moment)
    requires Starting(h, t, svc) && t.Http? && d in h.store.devices && h.store.services[svc].def.device == d
    ensures KnownTask(h.store, TaskDevice(h, t), h.tasks[t])
    ensures var r := AfterLaunch(h, t, true, m);
            && r.cfg == h.cfg && r.tasks == h.tasks - {t} && SameSizes(h.store.services, r.store.services)
            && d in r.store.devices && r.store.devices[d].running == h.store.devices[d].running + {svc}
  {
  }

  function Overlapping(a: Name, b: Name, m: Moment): seq<(Event, Moment)> {
    [(HttpStart(Http(1), a), m)] + ([(HttpStart(Http(2), b), m)] + TwoLaunches(m))
  }

  function TwoLaunches(m: Moment): seq<(Event, Moment)> {
    [(Launched(Http(1), true), m)] + ([(Launched(Http(2), true), m)] + [])
  }

  lemma StartIs(h: Hub, t: TaskId, svc: Name, m: Moment)
    requires Shape(h) && t.Http? && t !in h.tasks && svc in h.store.services && h.store.services[svc].status == Stopped
    ensures Step(h, HttpStart(t, svc), m) == AcquireLock(h, t, Explicit(svc), m)
  {
  }

  lemma LaunchedIs(h: Hub, t: TaskId, svc: Name, m: Moment)
    requires Shape(h) && Starting(h, t, svc)
    ensures Step(h, Launched(t, true), m) == AfterLaunch(h, t, true, m)
  {
  }

  lemma StartReaches(h: Hub, t: TaskId, d: Name, svc: Name, m: Moment, rest: seq<(Event, Moment)>)
    requires Invariant(h) && t.Http? && t !in h.tasks && Startable(h, d, svc)
    ensures var r := AcquireLock(h, t, Explicit(svc), m);
            Invariant(r) && Reached(h, [(HttpStart(t, svc), m)] + rest) == Reached(r, rest)
  {
    ReachedStep(h, HttpStart(t, svc), m, rest);
    StartIs(h, t, svc, m);
  }

  lemma LaunchReaches(h: Hub, t: TaskId, d: Name, svc: Name, m: Moment, rest: seq<(Event, Moment)>) returns (r: Hub)
    requires Invariant(h) && Starting(h, t, svc) && t.Http? && d in h.store.devices && h.store.services[svc].def.device == d
    ensures Invariant(r) && Reached(h, [(Launched(t, true), m)] + rest) == Reached(r, rest)
    ensures r.cfg == h.cfg && r.tasks == h.tasks - {t} && SameSizes(h.store.services, r.store.services)
    ensures d in r.store.devices && r.store.devices[d].running == h.store.devices[d].running + {svc}
  {
    LaunchFinished(h, t, d, svc, m);
    ReachedStep(h, Launched(t, true), m, rest);
    LaunchedIs(h, t, svc, m);
    r := AfterLaunch(h, t, true, m);
  }

  // Both starts are admitted, each on its own account.
  lemma BothAdmitted(h: Hub, d: Name, a: Name, b: Name, m: Moment) returns (r: Hub)
    requires Invariant(h) && Watched(h, d) && Startable(h, d, a) && Startable(h, d, b) && a != b
    requires Http(1) !in h.tasks && Http(2) !in h.tasks
    requires RoomFor(h.cfg, h.store, d, a) && RoomFor(h.cfg, h.store, d, b)
    ensures Reached(h, Overlapping(a, b, m)) == Reached(r, TwoLaunches(m))
    ensures Invariant(r) && r.cfg == h.cfg && SameUse(h.store, r.store, d)
    ensures Starting(r, Http(1), a) && Starting(r, Http(2), b)
  {
    var r1 := AcquireLock(h, Http(1), Explicit(a), m);
    StartAdmitted(h, Http(1), d, a, m);
    StartReaches(h, Http(1), d, a, m, [(HttpStart(Http(2), b), m)] + TwoLaunches(m));
    RoomSame(h.cfg, h.store, r1.store, d, b);
    StartAdmitted(r1, Http(2), d, b, m);
    StartReaches(r1, Http(2), d, b, m, TwoLaunches(m));
    r := AcquireLock(r1, Http(2), Explicit(b), m);
  }

  lemma BothStarted(h: Hub, d: Name, a: Name, b: Name, m: Moment)
    requires Invariant(h) && d in h.store.devices && Starting(h, Http(1), a) && Starting(h, Http(2), b) && a != b
    requires h.store.services[a].def.device == d && h.store.services[b].def.device == d
    ensures var r := Reached(h, TwoLaunches(m));
            && r.cfg == h.cfg && SameSizes(h.store.services, r.store.services)
            && d in r.store.devices && r.store.devices[d].running == h.store.devices[d].running + {a} + {b}
  {
    var r1 := LaunchReaches(h, Http(1), d, a, m, [(Launched(Http(2), true), m)] + []);
    var r2 := LaunchReaches(r1, Http(2), d, b, m, []);
  }

  /** Two overlapping starts, each of which fits, overcommit the device exactly if the two services
      together need more than the room there is. */
  lemma OverlappingStartsOvercommit(h: Hub, d: Name, a: Name, b: Name, m: Moment)
    requires Invariant(h) && SaneSizes(h.cfg, h.store) && Watched(h, d)
    requires Startable(h, d, a) && Startable(h, d, b) && a != b && Http(1) !in h.tasks && Http(2) !in h.tasks
    requires RoomFor(h.cfg, h.store, d, a) && RoomFor(h.cfg, h.store, d, b)
    ensures var r := Reached(h, Overlapping(a, b, m));
            && Tracked(r.cfg, r.store, d)
            && (Room(r.cfg, r.store, d) < 0 <==>
                Memory(h.store.services, a) + Memory(h.store.services, b) > Room(h.cfg, h.store, d))
  {
    var s := BothAdmitted(h, d, a, b, m);
    BothStarted(s, d, a, b, m);
    var r := Reached(h, Overlapping(a, b, m));
    var running := h.store.devices[d].running;
    LoadExact(h.cfg.names, running, a, h.store.services);
    LoadExact(h.cfg.names, running + {a}, b, h.store.services);
    SameLoadSizes(h.cfg.names, running + {a} + {b}, h.store.services, r.store.services);
  }

  // -- from a fresh hub -------------------------------------------------------------------

  const NPU: Name := "npu"
  const ASR: Name := "asr"
  const OCR: Name := "ocr"

  function StoppedService(): ServiceRuntime {
    ServiceRuntime(ServiceDefinition(NPU, Always, 1, 60), Stopped, None, 0, 0, None, None, None, {}, map[])
  }

  // A device with memory for one of its two services.
  function RoomForOne(): Hub {
    Hub(Config([ASR, OCR], map[NPU := 1]),
        Store(map[NPU := DeviceRuntime(DeviceDefinition(1, 30, 60), {}, 0, map[], {}, map[])],
              map[ASR := StoppedService(), OCR := StoppedService()], map[], map[]),
        map[NPU := []], map[Worker(NPU, 0) := Waiting], map[])
  }

  lemma RoomForOneFresh()
    ensures Fresh(RoomForOne()) && SaneSizes(RoomForOne().cfg, RoomForOne().store) && Watched(RoomForOne(), NPU)
    ensures Startable(RoomForOne(), NPU, ASR) && Startable(RoomForOne(), NPU, OCR)
  {
    assert Forwarders(RoomForOne().tasks, NPU, 1) == 0;
  }

  lemma OneIsLeft()
    ensures Room(RoomForOne().cfg, RoomForOne().store, NPU) == 1
    ensures Memory(RoomForOne().store.services, ASR) == Memory(RoomForOne().store.services, OCR) == 1
  {
    var h := RoomForOne();
    assert Load([], {}, h.store.services) == 0;
    assert h.cfg.names[1..] == [OCR] && [OCR][1..] == [];
    assert Load([OCR], {}, h.store.services) == 0;
  }

  /** From a fresh hub two overlapping starts put two services on a device with memory for one. */
  lemma FreshOvercommitted(m: Moment)
    ensures Fresh(RoomForOne())
    ensures var r := Reached(RoomForOne(), Overlapping(ASR, OCR, m));
            Tracked(r.cfg, r.store, NPU) && Room(r.cfg, r.store, NPU) < 0
  {
    RoomForOneFresh();
    OneIsLeft();
    FreshInvariant(RoomForOne());
    OverlappingStartsOvercommit(RoomForOne(), NPU, ASR, OCR, m);
  }
}
