/** The run that books a single-slot device twice: the session is started cold, a streaming lease
    reserves the slot meanwhile, and the second busy check passes over the session. */
module HubOverbooked {
  import opened Wrappers
  import opened HubTypes
  import opened HubStore
  import opened HubStoreLaws
  import opened HubScheduler
  import opened HubMachine
  import opened HubSlots
  import opened HubSafety
  import opened Behaviours

  const NPU: Name := "npu"
  const ASR: Name := "asr"

  function OneSlot(): DeviceRuntime {
    DeviceRuntime(DeviceDefinition(1, 30, 60), {}, 0, map[], {}, map[])
  }

  function AsrService(): ServiceRuntime {
    ServiceRuntime(ServiceDefinition(NPU, Always, 1, 60), Stopped, None, 0, 0, None, None, None, {}, map[])
  }

  function Start(): Hub {
    Hub(Config([ASR], map[]), Store(map[NPU := OneSlot()], map[ASR := AsrService()], map[], map[]),
        map[NPU := []], map[Worker(NPU, 0) := Waiting], map[])
  }

  function At(now: Time): Moment {
    Moment(now, [])
  }

  function Queued1(): SessionRecord {
    SessionRecord(ASR, Queued, 0, None, None)
  }

  function AfterSubmit(): Hub {
    Start().(store := Store(map[NPU := OneSlot()], map[ASR := AsrService().(queueSize := 1)], map["s1" := Queued1()], map[]),
             queues := map[NPU := [(ASR, "s1")]])
  }

  function AfterDequeue(): Hub {
    Start().(store := Store(map[NPU := OneSlot()], map[ASR := AsrService().(status := Starting)],
                            map["s1" := Queued1().(status := SessionStarting)], map[]),
             tasks := map[Worker(NPU, 0) := Launching(Auto(ASR, "s1"))], locks := map[ASR := Worker(NPU, 0)])
  }

  function AfterReserve(): Hub {
    AfterDequeue().(store := Store(map[NPU := OneSlot().(slots := map[(ASR, "l1") := 100])],
      map[ASR := AsrService().(status := Starting, leases := map["l1" := 100])],
      map["s1" := Queued1().(status := SessionStarting)], map[]))
  }

  lemma NothingPruned(s: Store, now: Time)
    requires NPU in s.devices && s.devices[NPU].slots == map[]
    ensures Prune(s, NPU, now) == s
  {
    assert LiveSlots(s.devices[NPU].slots, now) == s.devices[NPU].slots;
    assert s.devices[NPU := s.devices[NPU]] == s.devices;
  }

  lemma SubmitStep()
    ensures Submitted(Start(), ASR, "s1", At(0)) == AfterSubmit()
  {
    NothingPruned(Start().store, 0);
    assert CanAccept(Start().store, NPU, 0) == (Start().store, true);
    assert Start().queues[NPU] + [(ASR, "s1")] == [(ASR, "s1")];
    assert Start().queues[NPU := [(ASR, "s1")]] == AfterSubmit().queues;
    assert CreateSession(Start().store, ASR, "s1", 0) == AfterSubmit().store;
  }

  lemma AcceptedAtFirst()
    ensures AbortIfBusy(TakenOff(AfterSubmit().store, ASR), NPU, "s1", 1) == (TakenOff(AfterSubmit().store, ASR), false)
  {
    NothingPruned(TakenOff(AfterSubmit().store, ASR), 1);
  }

  lemma DequeueStep()
    ensures HasWork(AfterSubmit(), Worker(NPU, 0)) && Dequeued(AfterSubmit(), Worker(NPU, 0), At(1)) == AfterDequeue()
  {
    var h := AfterSubmit();
    AcceptedAtFirst();
    assert h.queues[NPU][1..] == [];
    assert h.queues[NPU := []] == map[NPU := []];
    StartsCold(h.(queues := map[NPU := []], store := TakenOff(h.store, ASR)));
  }

  // No memory is tracked, so the service is launched at once.
  lemma StartsCold(h: Hub)
    requires h.store == TakenOff(AfterSubmit().store, ASR) && h.tasks == Start().tasks && h.locks == map[]
    requires h.cfg == Start().cfg && h.queues == map[NPU := []]
    ensures AcquireLock(h, Worker(NPU, 0), Auto(ASR, "s1"), At(1)) == AfterDequeue()
  {
    var h1 := h.(locks := h.locks[ASR := Worker(NPU, 0)]);
    assert AcquireLock(h, Worker(NPU, 0), Auto(ASR, "s1"), At(1)) == Launch(h1, Worker(NPU, 0), Auto(ASR, "s1"));
    assert h1.locks == AfterDequeue().locks;
    assert h.tasks[Worker(NPU, 0) := Launching(Auto(ASR, "s1"))] == AfterDequeue().tasks;
  }

  lemma ReserveTouches()
    ensures Touch(AfterDequeue().store, ASR, "l1", 100, true, 2, 2) == (AfterReserve().store, None)
  {
    var s := AfterDequeue().store;
    NothingPruned(s, 2);
    var taken := PutSlots(s, NPU, map[(ASR, "l1") := 100]);
    assert s.devices[NPU].slots[(ASR, "l1") := 100] == map[(ASR, "l1") := 100];
    RecordsLease(taken);
  }

  // No session is QUEUED any more, so recording the lease fails none.
  lemma RecordsLease(taken: Store)
    requires taken == PutSlots(AfterDequeue().store, NPU, map[(ASR, "l1") := 100])
    ensures RecordLease(taken, ASR, "l1", 100, 2) == AfterReserve().store
  {
    var rt := taken.services[ASR];
    var s1 := PutService(taken, ASR, rt.(leases := rt.leases[("l1") := 100]));
    NoneFailed(s1);
    assert rt.leases["l1" := 100] == map["l1" := 100];
  }

  lemma NoneFailed(s: Store)
    requires s.sessions == AfterDequeue().store.sessions && s.services.Keys == {ASR}
    ensures FailQueued(s, NPU, 2) == s
  {
    assert QueuedFor(s, ASR) == {};
    assert FailQueued(s, NPU, 2).sessions == s.sessions;
    assert FailQueued(s, NPU, 2).services == s.services;
  }

  lemma NothingSwept()
    ensures Sweep(AfterReserve().store, {ASR}, 2) == AfterReserve().store
  {
    var s := AfterReserve().store;
    assert LiveLeases(s.services[ASR].leases, 2) == s.services[ASR].leases;
    assert Sweep(s, {ASR}, 2).services == s.services;
    assert SweptDevice(s, NPU, {ASR}, 2).slots == s.devices[NPU].slots;
    assert Sweep(s, {ASR}, 2).devices == s.devices;
  }

  lemma ReserveStep()
    ensures Reserved(AfterDequeue().store, ASR, "l1", 100, 2) == AfterReserve().store
  {
    var s := AfterDequeue().store;
    NothingPruned(s, 2);
    assert ReserveReady(s, NPU, ASR, "l1", 2, 2) == (s, true);
    ReserveTouches();
    NothingSwept();
  }

  // The session is STARTING, so the check before the dispatch does not look at the slots.
  lemma CheckSkipped(s: Store)
    requires s.sessions == AfterReserve().store.sessions
    ensures AbortIfBusy(s, NPU, "s1", 3) == (s, false)
  {
  }

  function AfterLaunched(): Hub {
    var s := MarkStarted(AfterReserve().store, ASR, 3);
    SetTask(Unlock(AfterReserve(), ASR).(store := Dispatched(s, NPU, ASR, "s1", 3)), Worker(NPU, 0), Forwarding(ASR, "s1"))
  }

  lemma LaunchedStep()
    ensures TaskDevice(AfterReserve(), Worker(NPU, 0)) == NPU
    ensures AfterLaunch(AfterReserve(), Worker(NPU, 0), true, At(3)) == AfterLaunched()
  {
    var s := MarkStarted(AfterReserve().store, ASR, 3);
    CheckSkipped(s);
    var h := Unlock(AfterReserve().(store := s), ASR);
    assert Proceed(h, Worker(NPU, 0), Auto(ASR, "s1"), At(3)) == TryDispatch(h, Worker(NPU, 0), ASR, "s1", At(3));
  }

  lemma TwiceUsed()
    ensures NPU in AfterLaunched().store.devices && Used(AfterLaunched().store, NPU) == 2
  {
    assert |map[(ASR, "l1") := 100]| == 1;
  }

  lemma ShapesIdle()
    ensures Shape(Start()) && Shape(AfterSubmit())
  {
  }

  lemma ShapeStarting()
    ensures Shape(AfterDequeue())
  {
  }

  lemma ShapeReserved()
    ensures Shape(AfterReserve())
  {
  }

  lemma StartFresh()
    ensures Fresh(Start())
  {
    assert Forwarders(Start().tasks, NPU, 1) == 0;
  }

  function LastTwo(): seq<(Event, Moment)> {
    [(ReserveLease(ASR, "l1", 100), At(2))] + ([(Launched(Worker(NPU, 0), true), At(3))] + [])
  }

  function Steps(): seq<(Event, Moment)> {
    [(Submit(ASR, "s1"), At(0))] + ([(Dequeue(Worker(NPU, 0)), At(1))] + LastTwo())
  }

  lemma LastStep()
    ensures Reached(AfterReserve(), [(Launched(Worker(NPU, 0), true), At(3))] + []) == AfterLaunched()
  {
    ShapeReserved();
    LaunchedStep();
    ReachedOne(AfterReserve(), Launched(Worker(NPU, 0), true), At(3), AfterLaunched(), []);
  }

  lemma ReserveIs(h: Hub, svc: Name, lease: LeaseId, expires: Time, m: Moment)
    requires Shape(h) && svc in h.store.services
    ensures Step(h, ReserveLease(svc, lease, expires), m) == h.(store := Reserved(h.store, svc, lease, expires, m.now))
  {
  }

  lemma ThirdStep()
    ensures Shape(AfterDequeue()) && Step(AfterDequeue(), ReserveLease(ASR, "l1", 100), At(2)) == AfterReserve()
  {
    ShapeStarting();
    ReserveIs(AfterDequeue(), ASR, "l1", 100, At(2));
    ReserveStep();
  }

  lemma EndOfRun()
    ensures Reached(AfterDequeue(), LastTwo()) == AfterLaunched()
  {
    ThirdStep();
    LastStep();
    ReachedOne(AfterDequeue(), ReserveLease(ASR, "l1", 100), At(2), AfterReserve(), [(Launched(Worker(NPU, 0), true), At(3))] + []);
  }

  lemma WholeRun()
    ensures Reached(Start(), Steps()) == AfterLaunched()
  {
    ShapesIdle();
    SubmitStep();
    DequeueStep();
    EndOfRun();
    ReachedOne(AfterSubmit(), Dequeue(Worker(NPU, 0)), At(1), AfterDequeue(), LastTwo());
    ReachedOne(Start(), Submit(ASR, "s1"), At(0), AfterSubmit(), [(Dequeue(Worker(NPU, 0)), At(1))] + LastTwo());
  }

  /** Overbooking is reachable: from a fresh hub, four steps use the one slot twice. */
  lemma SingleSlotOverbooked()
    ensures Fresh(Start()) && NPU in Reached(Start(), Steps()).store.devices
    ensures Start().store.devices[NPU].def.maxConcurrency == 1 && Used(Reached(Start(), Steps()).store, NPU) == 2
  {
    StartFresh();
    WholeRun();
    TwiceUsed();
  }
}
