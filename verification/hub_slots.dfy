/** Slot safety under every interleaving, and what every step keeps. */
module HubSlots {
  import opened Wrappers
  import opened HubTypes
  import opened HubStore
  import opened HubStoreLaws
  import opened HubScheduler
  import opened HubMoves
  import opened HubMachine
  import opened HubRuns
  import opened HubDispatch
  import opened HubRequests
  import opened HubSteps

  function IsForwarding(tasks: map<TaskId, Task>, t: TaskId): int {
    if t in tasks && tasks[t].Forwarding? then 1 else 0
  }

  // How many of the first n workers of device d wait for an upstream answer.
  function Forwarders(tasks: map<TaskId, Task>, d: Name, n: int): int {
    if n <= 0 then 0 else Forwarders(tasks, d, n - 1) + IsForwarding(tasks, Worker(d, n - 1))
  }

  lemma {:induction false} ForwardersBounds(tasks: map<TaskId, Task>, d: Name, n: int)
    ensures 0 <= Forwarders(tasks, d, n) <= if n <= 0 then 0 else n
  {
    if n > 0 {
      ForwardersBounds(tasks, d, n - 1);
    }
  }

  // Only task t changed: the number of forwarders changes by what t does, if t is one of them.
  lemma {:induction false} ForwardersChange(tasks: map<TaskId, Task>, r: map<TaskId, Task>, t: TaskId, d: Name, n: int)
    requires OthersSame(tasks, r, t)
    ensures Forwarders(r, d, n) == Forwarders(tasks, d, n)
              + if t.Worker? && t.device == d && 0 <= t.index < n then IsForwarding(r, t) - IsForwarding(tasks, t) else 0
  {
    if n > 0 {
      ForwardersChange(tasks, r, t, d, n - 1);
      assert Worker(d, n - 1) != t ==> IsForwarding(r, Worker(d, n - 1)) == IsForwarding(tasks, Worker(d, n - 1));
    }
  }

  function Serving(h: Hub, d: Name): int
    requires d in h.store.devices
  {
    Forwarders(h.tasks, d, h.store.devices[d].def.maxConcurrency)
  }

  // A tracked device has exactly as many workers as its concurrency.
  ghost predicate Placed(h: Hub) {
    forall t :: t in h.tasks && t.Worker? && t.device in h.store.devices ==>
      0 <= t.index < h.store.devices[t.device].def.maxConcurrency
  }

  // The count is covered by workers that really wait, exactly so on a single-slot device.
  ghost predicate DeviceCounted(h: Hub, d: Name)
    requires d in h.store.devices
  {
    && h.store.devices[d].active <= Serving(h, d)
    && (h.store.devices[d].def.maxConcurrency == 1 ==> h.store.devices[d].active == Serving(h, d))
  }

  ghost predicate Counted(h: Hub) {
    forall d :: d in h.store.devices ==> DeviceCounted(h, d)
  }

  /** What holds in every reachable state. */
  ghost predicate Invariant(h: Hub) {
    Sound(h) && Placed(h) && Counted(h)
  }

  // -- counting ---------------------------------------------------------------------------

  lemma RunsCounted(h: Hub, r: Hub, t: TaskId, sc: Scope, d: Name)
    requires d in h.store.devices && DevicesMove(h.store.services, h.store.devices, r.store.devices, sc)
    requires OthersSame(h.tasks, r.tasks, t) && IsForwarding(h.tasks, t) == 0 && IsForwarding(r.tasks, t) == 0
    requires sc.own == Some(d) ==> t.Worker? && t.device == d && 0 <= t.index < h.store.devices[d].def.maxConcurrency
    requires DeviceCounted(h, d) && DeviceBounded(h.store.devices[d])
    ensures d in r.store.devices && DeviceCounted(r, d)
  {
    ForwardersChange(h.tasks, r.tasks, t, d, h.store.devices[d].def.maxConcurrency);
    assert DeviceMoves(h.store.services, d, h.store.devices[d], r.store.devices[d], sc);
    if h.store.devices[d].def.maxConcurrency == 1 && sc.own == Some(d) {
      assert Forwarders(h.tasks, d, 1) == Forwarders(h.tasks, d, 0) + IsForwarding(h.tasks, t);
    }
  }

  lemma EndsCounted(h: Hub, r: Hub, t: TaskId, sc: Scope, d: Name)
    requires d in h.store.devices && DevicesMove(h.store.services, h.store.devices, r.store.devices, sc)
    requires OthersSame(h.tasks, r.tasks, t) && IsForwarding(h.tasks, t) == 1 && IsForwarding(r.tasks, t) == 0
    requires t.Worker? && sc.own == Some(t.device) && Unloaded(h, r, t.device)
    requires t.device == d ==> 0 <= t.index < h.store.devices[d].def.maxConcurrency
    requires DeviceCounted(h, d) && DeviceBounded(h.store.devices[d])
    ensures d in r.store.devices && DeviceCounted(r, d)
  {
    ForwardersChange(h.tasks, r.tasks, t, d, h.store.devices[d].def.maxConcurrency);
    ForwardersBounds(h.tasks, d, h.store.devices[d].def.maxConcurrency);
    assert DeviceMoves(h.store.services, d, h.store.devices[d], r.store.devices[d], sc);
    if t.device == d && h.store.devices[d].def.maxConcurrency == 1 {
      assert Forwarders(h.tasks, d, 1) == Forwarders(h.tasks, d, 0) + IsForwarding(h.tasks, t);
    }
    ForwardersBounds(r.tasks, d, h.store.devices[d].def.maxConcurrency);
  }

  lemma DispatchCounted(h: Hub, r: Hub, t: TaskId, sc: Scope, mid: Devices, d: Name)
    requires d in h.store.devices && DevicesMove(h.store.services, h.store.devices, mid, sc)
    requires OthersSame(h.tasks, r.tasks, t) && IsForwarding(h.tasks, t) == 0 && IsForwarding(r.tasks, t) == 1
    requires t.Worker? && sc.own == Some(t.device) && OneMore(mid, r.store.devices, t.device)
    requires t.device == d ==> 0 <= t.index < h.store.devices[d].def.maxConcurrency
    requires DeviceCounted(h, d) && DeviceBounded(h.store.devices[d])
    ensures d in r.store.devices && DeviceCounted(r, d)
  {
    ForwardersChange(h.tasks, r.tasks, t, d, h.store.devices[d].def.maxConcurrency);
    assert DeviceMoves(h.store.services, d, h.store.devices[d], mid[d], sc);
    if t.device == d && h.store.devices[d].def.maxConcurrency == 1 {
      assert Forwarders(h.tasks, d, 1) == Forwarders(h.tasks, d, 0) + IsForwarding(h.tasks, t);
    }
  }

  lemma HoldsCounted(h: Hub, r: Hub, d: Name)
    requires d in h.store.devices && DevicesHold(h.store.devices, r.store.devices) && r.tasks == h.tasks
    requires DeviceCounted(h, d)
    ensures d in r.store.devices && DeviceCounted(r, d)
  {
    assert DeviceHolds(h.store.devices[d], r.store.devices[d]);
  }

  // -- references -------------------------------------------------------------------------

  // Everything tables of records refer to stays.
  ghost predicate StoreStays(s: Store, r: Store) {
    && SameServices(s.services, r.services) && SessionsStay(s.sessions, r.sessions)
    && s.devices.Keys == r.devices.Keys
    && forall d :: d in s.devices ==> r.devices[d].def == s.devices[d].def
  }

  lemma KnownTaskStays(s: Store, r: Store, d: Name, task: Task)
    requires StoreStays(s, r) && KnownTask(s, d, task)
    ensures KnownTask(r, d, task)
  {
  }

  lemma TaskDeviceStays(h: Hub, r: Hub, t: TaskId)
    requires StoreStays(h.store, r.store) && t in h.tasks && t in r.tasks && r.tasks[t] == h.tasks[t]
    ensures TaskDevice(r, t) == TaskDevice(h, t)
  {
  }

  lemma OwnTaskDevice(h: Hub, t: TaskId, d: Name)
    requires t in h.tasks && KnownTask(h.store, d, h.tasks[t]) && RightTask(t, h.tasks[t])
    requires t.Worker? ==> t.device == d
    ensures TaskDevice(h, t) == d
  {
  }

  ghost predicate QueuesKnown(h: Hub) {
    forall d, i :: d in h.queues && 0 <= i < |h.queues[d]| ==>
      KnownContext(h.store, d, Auto(h.queues[d][i].0, h.queues[d][i].1))
  }

  lemma QueuesStay(h: Hub, r: Hub, e: Event)
    requires StoreStays(h.store, r.store) && QueuesKnown(h) && r.queues == Popped(h, e).queues
    ensures QueuesKnown(r)
  {
    forall d, i | d in r.queues && 0 <= i < |r.queues[d]|
      ensures KnownContext(r.store, d, Auto(r.queues[d][i].0, r.queues[d][i].1))
    {
      if e.Dequeue? && HasWork(h, e.t) && d == e.t.device {
        assert r.queues[d][i] == h.queues[d][i + 1];
        assert KnownContext(h.store, d, Auto(h.queues[d][i + 1].0, h.queues[d][i + 1].1));
      } else {
        assert KnownContext(h.store, d, Auto(h.queues[d][i].0, h.queues[d][i].1));
      }
    }
  }

  lemma QueuesGrown(h: Hub, r: Hub)
    requires StoreStays(h.store, r.store) && QueuesKnown(h) && QueuesGrow(h, r)
    ensures QueuesKnown(r)
  {
    forall d, i | d in r.queues && 0 <= i < |r.queues[d]|
      ensures KnownContext(r.store, d, Auto(r.queues[d][i].0, r.queues[d][i].1))
    {
      if i < |h.queues[d]| && r.queues[d][i] == h.queues[d][i] {
        assert KnownContext(h.store, d, Auto(h.queues[d][i].0, h.queues[d][i].1));
      }
    }
  }

  lemma ShapeStays(h: Hub, r: Hub, t: TaskId, d: Name)
    requires Shape(h) && StoreStays(h.store, r.store) && OthersSame(h.tasks, r.tasks, t) && QueuesKnown(r)
    requires t in r.tasks ==> KnownTask(r.store, d, r.tasks[t]) && RightTask(t, r.tasks[t])
    requires t.Worker? ==> t.device == d
    ensures Shape(r)
  {
    forall u | u in r.tasks
      ensures KnownTask(r.store, TaskDevice(r, u), r.tasks[u]) && RightTask(u, r.tasks[u])
    {
      if u == t {
        OwnTaskDevice(r, t, d);
      } else {
        TaskDeviceStays(h, r, u);
        KnownTaskStays(h.store, r.store, TaskDevice(h, u), h.tasks[u]);
      }
    }
  }

  lemma PendingStay(s: Store, r: Store, sc: Scope)
    requires SameServices(s.services, r.services) && DevicesMove(s.services, s.devices, r.devices, sc)
    requires forall d :: PendingKnown(s, d)
    ensures forall d :: PendingKnown(r, d)
  {
    forall d
      ensures PendingKnown(r, d)
    {
      PendingStays(s, r, d, sc);
    }
  }

  // -- the four kinds keep the invariant --------------------------------------------------

  lemma MovesStay(s: Store, r: Store, sc: Scope)
    requires SameServices(s.services, r.services) && SessionsStay(s.sessions, r.sessions)
    requires DevicesMove(s.services, s.devices, r.devices, sc)
    ensures StoreStays(s, r)
  {
    forall d | d in s.devices
      ensures r.devices[d].def == s.devices[d].def
    {
      assert DeviceMoves(s.services, d, s.devices[d], r.devices[d], sc);
    }
  }

  lemma PlacedStays(h: Hub, r: Hub, t: TaskId)
    requires Placed(h) && StoreStays(h.store, r.store) && OthersSame(h.tasks, r.tasks, t)
    requires t in r.tasks && t.Worker? ==> t in h.tasks
    ensures Placed(r)
  {
  }

  lemma RunsKeeps(h: Hub, e: Event, r: Hub)
    requires Invariant(h) && TaskRuns(h, e, r) && (Actor(e) in r.tasks && Actor(e).Worker? ==> Actor(e) in h.tasks)
    requires Actor(e) in h.tasks || Actor(e).Http?
    ensures Invariant(r)
  {
    var t, d, sc := Actor(e), ActorDevice(h, e), EventScope(h, e);
    assert Good(r.store);
    MovesStay(h.store, r.store, sc);
    PendingStay(h.store, r.store, sc);
    QueuesStay(h, r, e);
    ShapeStays(h, r, t, d);
    PlacedStays(h, r, t);
    forall x | x in r.store.devices
      ensures DeviceCounted(r, x)
    {
      assert DeviceCounted(h, x) && DeviceBounded(h.store.devices[x]);
      RunsCounted(h, r, t, sc, x);
    }
  }

  lemma EndsKeeps(h: Hub, e: Event, r: Hub)
    requires Invariant(h) && TaskEnds(h, e, r)
    ensures Invariant(r)
  {
    var t, d, sc := Actor(e), ActorDevice(h, e), EventScope(h, e);
    assert Good(r.store);
    MovesStay(h.store, r.store, sc);
    PendingStay(h.store, r.store, sc);
    ShapeStaysHere(h, r, t, d);
    PlacedStays(h, r, t);
    forall x | x in r.store.devices
      ensures DeviceCounted(r, x)
    {
      assert DeviceCounted(h, x) && DeviceBounded(h.store.devices[x]);
      EndsCounted(h, r, t, sc, x);
    }
  }

  lemma ShapeStaysHere(h: Hub, r: Hub, t: TaskId, d: Name)
    requires Shape(h) && StoreStays(h.store, r.store) && OthersSame(h.tasks, r.tasks, t) && r.queues == h.queues
    requires t in r.tasks ==> KnownTask(r.store, d, r.tasks[t]) && RightTask(t, r.tasks[t])
    requires t.Worker? ==> t.device == d
    ensures Shape(r)
  {
    forall x, i | x in r.queues && 0 <= i < |r.queues[x]|
      ensures KnownContext(r.store, x, Auto(r.queues[x][i].0, r.queues[x][i].1))
    {
      assert KnownContext(h.store, x, Auto(h.queues[x][i].0, h.queues[x][i].1));
    }
    ShapeStays(h, r, t, d);
  }

  lemma AllDispatchCounted(h: Hub, r: Hub, t: TaskId, sc: Scope, mid: Devices)
    requires Counted(h) && Placed(h) && SlotsBounded(h.store.devices) && t in h.tasks
    requires DevicesMove(h.store.services, h.store.devices, mid, sc)
    requires OthersSame(h.tasks, r.tasks, t) && IsForwarding(h.tasks, t) == 0 && IsForwarding(r.tasks, t) == 1
    requires t.Worker? && sc.own == Some(t.device) && OneMore(mid, r.store.devices, t.device)
    ensures Counted(r)
  {
    forall x | x in r.store.devices
      ensures DeviceCounted(r, x)
    {
      assert DeviceCounted(h, x) && DeviceBounded(h.store.devices[x]);
      DispatchCounted(h, r, t, sc, mid, x);
    }
  }

  lemma DispatchKeeps(h: Hub, e: Event, r: Hub)
    requires Invariant(h) && TaskDispatches(h, e, r) && Actor(e) in h.tasks
    ensures Invariant(r)
  {
    var t, d, sc := Actor(e), ActorDevice(h, e), EventScope(h, e);
    var mid :| Dispatches(Popped(h, e), r, t, d, Dispatching(h, e), mid, sc);
    assert Good(r.store);
    AllDispatchCounted(h, r, t, sc, mid);
    DispatchStores(h, r, t, d, mid, sc, Popped(h, e), Dispatching(h, e));
    QueuesStay(h, r, e);
    ShapeStays(h, r, t, d);
    PlacedStays(h, r, t);
  }

  lemma DispatchStores(h: Hub, r: Hub, t: TaskId, d: Name, mid: Devices, sc: Scope, from: Hub, sid: SessionId)
    requires Dispatches(from, r, t, d, sid, mid, sc) && from.store == h.store
    requires forall x :: PendingKnown(h.store, x)
    ensures StoreStays(h.store, r.store) && forall x :: PendingKnown(r.store, x)
  {
    var m := h.store.(devices := mid);
    MovesStay(h.store, h.store.(devices := mid), sc);
    PendingStay(h.store, h.store.(devices := mid), sc);
    forall x
      ensures PendingKnown(r.store, x)
    {
      assert PendingKnown(m, x);
    }
  }

  lemma HoldsKeeps(h: Hub, r: Hub)
    requires Invariant(h) && StoreOnly(h, r)
    ensures Invariant(r)
  {
    assert Good(r.store);
    HoldsStay(h.store, r.store);
    QueuesGrown(h, r);
    forall u | u in r.tasks
      ensures KnownTask(r.store, TaskDevice(r, u), r.tasks[u]) && RightTask(u, r.tasks[u])
    {
      TaskDeviceStays(h, r, u);
      KnownTaskStays(h.store, r.store, TaskDevice(h, u), h.tasks[u]);
    }
    forall x | x in r.store.devices
      ensures DeviceCounted(r, x)
    {
      assert DeviceCounted(h, x);
      HoldsCounted(h, r, x);
    }
  }

  lemma HoldsStay(s: Store, r: Store)
    requires Holds(s, r)
    ensures StoreStays(s, r) && ((forall x :: PendingKnown(s, x)) ==> forall x :: PendingKnown(r, x))
  {
    forall d | d in s.devices
      ensures r.devices[d].def == s.devices[d].def && r.devices[d].pending == s.devices[d].pending
    {
      assert DeviceHolds(s.devices[d], r.devices[d]);
    }
    if forall x :: PendingKnown(s, x) {
      forall x
        ensures PendingKnown(r, x)
      {
        assert PendingKnown(s, x);
      }
    }
  }

  // Workers exist from the start: what is not an HTTP handler's step is a step of a worker
  // that is there, or of no task.
  lemma ActorThere(h: Hub, e: Event, m: Moment)
    requires Sound(h)
    ensures Step(h, e, m) == h || Actor(e) in h.tasks || Actor(e).Http?
  {
  }

  lemma NothingKeeps(h: Hub, r: Hub)
    requires Invariant(h) && r == h
    ensures Invariant(r)
  {
  }

  // Definitions and references survive every kind of step.
  lemma KindStays(h: Hub, e: Event, r: Hub)
    requires OfFourKinds(h, e, r) && forall x :: PendingKnown(h.store, x)
    ensures StoreStays(h.store, r.store)
  {
    if StoreOnly(h, r) {
      HoldsStay(h.store, r.store);
    } else if TaskRuns(h, e, r) || TaskEnds(h, e, r) {
      MovesStay(h.store, r.store, EventScope(h, e));
    } else {
      var mid: Devices :| Dispatches(Popped(h, e), r, Actor(e), ActorDevice(h, e), Dispatching(h, e), mid, EventScope(h, e));
      DispatchStores(h, r, Actor(e), ActorDevice(h, e), mid, EventScope(h, e), Popped(h, e), Dispatching(h, e));
    }
  }

  /** Every step, of whatever task, keeps the invariant. */
  lemma StepKeepsInvariant(h: Hub, e: Event, m: Moment)
    requires Invariant(h)
    ensures Invariant(Step(h, e, m))
  {
    var r := Step(h, e, m);
    StepKind(h, e, m);
    ActorThere(h, e, m);
    if r == h {
      NothingKeeps(h, r);
    } else if StoreOnly(h, r) {
      HoldsKeeps(h, r);
    } else if TaskRuns(h, e, r) {
      RunsKeeps(h, e, r);
    } else if TaskEnds(h, e, r) {
      EndsKeeps(h, e, r);
    } else {
      DispatchKeeps(h, e, r);
    }
  }
}
