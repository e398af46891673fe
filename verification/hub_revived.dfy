/** The run in which a session's status goes back: a lease reserves the one slot while the session
    is queued and fails it, and the worker that takes it off the queue dispatches it. */
module HubRevived {
  import opened Wrappers
  import opened HubTypes
  import opened HubStore
  import opened HubStoreLaws
  import opened HubScheduler
  import opened HubMachine
  import opened HubSlots
  import opened HubSafety
  import opened HubSessionRuns
  import opened HubBackwards
  import opened HubOverbooked

  function UpService(): ServiceRuntime {
    AsrService().(status := Idle)
  }

  function UpDevice(): DeviceRuntime {
    OneSlot().(running := {ASR})
  }

  function UpStart(): Hub {
    Start().(store := Store(map[NPU := UpDevice()], map[ASR := UpService()], map[], map[]))
  }

  function Waits(): Hub {
    UpStart().(store := Store(map[NPU := UpDevice()], map[ASR := UpService().(queueSize := 1)], map["s1" := Queued1()], map[]),
               queues := map[NPU := [(ASR, "s1")]])
  }

  function Failed1(): SessionRecord {
    FailedAt(Queued1(), 1)
  }

  function LeasedService(): ServiceRuntime {
    UpService().(status := External, leases := map["l1" := 100])
  }

  function LeasedDevice(): DeviceRuntime {
    UpDevice().(slots := map[(ASR, "l1") := 100])
  }

  function Leased(): Hub {
    Waits().(store := Store(map[NPU := LeasedDevice()], map[ASR := LeasedService()], map["s1" := Failed1()], map[]))
  }

  lemma UpFresh()
    ensures Fresh(UpStart())
  {
    assert Forwarders(UpStart().tasks, NPU, 1) == 0;
  }

  lemma Submits()
    ensures Submitted(UpStart(), ASR, "s1", At(0)) == Waits()
  {
    NothingPruned(UpStart().store, 0);
    assert CanAccept(UpStart().store, NPU, 0) == (UpStart().store, true);
    assert UpStart().queues[NPU] + [(ASR, "s1")] == [(ASR, "s1")];
    assert UpStart().queues[NPU := [(ASR, "s1")]] == Waits().queues;
    assert CreateSession(UpStart().store, ASR, "s1", 0) == Waits().store;
  }

  // The queued session fails, and leaves the queue size but not the queue.
  lemma QueuedFails(s: Store)
    requires s.sessions == Waits().store.sessions && s.services.Keys == {ASR}
    requires s.services[ASR] == UpService().(queueSize := 1, leases := map["l1" := 100])
    ensures FailQueued(s, NPU, 1)
         == s.(sessions := map["s1" := Failed1()], services := map[ASR := UpService().(leases := map["l1" := 100])])
  {
    var r := FailQueued(s, NPU, 1);
    assert QueuedFor(s, ASR) == {"s1"};
    assert r.services[ASR] == UpService().(leases := map["l1" := 100]);
    assert r.services == map[ASR := UpService().(leases := map["l1" := 100])];
    assert r.sessions == map["s1" := Failed1()];
  }

  lemma OneLease()
    ensures Synced(UpService().(leases := map["l1" := 100])) == LeasedService() == Synced(LeasedService())
  {
    assert "l1" in map["l1" := 100];
  }

  lemma Records()
    ensures RecordLease(PutSlots(Waits().store, NPU, map[(ASR, "l1") := 100]), ASR, "l1", 100, 1) == Leased().store
  {
    var taken := PutSlots(Waits().store, NPU, map[(ASR, "l1") := 100]);
    var rt := taken.services[ASR];
    var s1 := PutService(taken, ASR, rt.(leases := rt.leases["l1" := 100]));
    assert rt.leases["l1" := 100] == map["l1" := 100];
    QueuedFails(s1);
    OneLease();
    var s2 := FailQueued(s1, NPU, 1);
    assert s2.services[ASR := Synced(s2.services[ASR])] == map[ASR := LeasedService()];
    assert s2.devices == map[NPU := LeasedDevice()];
  }

  lemma Touches()
    ensures Touch(Waits().store, ASR, "l1", 100, true, 1, 1) == (Leased().store, None)
  {
    var s := Waits().store;
    NothingPruned(s, 1);
    assert s.devices[NPU].slots[(ASR, "l1") := 100] == map[(ASR, "l1") := 100];
    Records();
  }

  lemma NothingExpired()
    ensures Sweep(Leased().store, {ASR}, 1) == Leased().store
  {
    var s := Leased().store;
    assert LiveLeases(s.services[ASR].leases, 1) == s.services[ASR].leases;
    OneLease();
    assert Sweep(s, {ASR}, 1).services == s.services;
    assert SweptDevice(s, NPU, {ASR}, 1).slots == s.devices[NPU].slots;
    assert Sweep(s, {ASR}, 1).devices == s.devices;
  }

  lemma Reserves()
    ensures Reserved(Waits().store, ASR, "l1", 100, 1) == Leased().store
  {
    var s := Waits().store;
    NothingPruned(s, 1);
    assert ReserveReady(s, NPU, ASR, "l1", 1, 1) == (s, true);
    Touches();
    NothingExpired();
  }

  lemma Shapes()
    ensures Shape(UpStart()) && Shape(Waits()) && Shape(Leased())
  {
  }

  function TwoSteps(): seq<(Event, Moment)> {
    [(Submit(ASR, "s1"), At(0))] + ([(ReserveLease(ASR, "l1", 100), At(1))] + [])
  }

  lemma TwoStepsLead()
    ensures Reached(UpStart(), TwoSteps()) == Leased()
  {
    Shapes();
    Submits();
    Reserves();
    ReserveIs(Waits(), ASR, "l1", 100, At(1));
    ReachedOne(Waits(), ReserveLease(ASR, "l1", 100), At(1), Leased(), []);
    ReachedOne(UpStart(), Submit(ASR, "s1"), At(0), Waits(), [(ReserveLease(ASR, "l1", 100), At(1))] + []);
  }

  lemma WorkIsThere()
    ensures HasWork(Leased(), Worker(NPU, 0)) && Leased().queues[NPU][0] == (ASR, "s1")
    ensures Leased().store.sessions["s1"].status == Failed && TakenBack(Leased(), Dequeue(Worker(NPU, 0)), At(2), "s1")
  {
  }

  /** From a fresh hub two steps lead to a state in which the next takes a session from FAILED back
      to PROCESSING. */
  lemma StatusGoesBack()
    ensures Fresh(UpStart())
    ensures var h := Reached(UpStart(), TwoSteps());
            && Shape(h) && "s1" in h.store.sessions && h.store.sessions["s1"].status == Failed
            && TakenBack(h, Dequeue(Worker(NPU, 0)), At(2), "s1")
            && var r := Step(h, Dequeue(Worker(NPU, 0)), At(2));
               "s1" in r.store.sessions && r.store.sessions["s1"].status == SessionProcessing
  {
    UpFresh();
    TwoStepsLead();
    Shapes();
    WorkIsThere();
    FailedSessionRevived(Leased(), Worker(NPU, 0), At(2));
  }
}
