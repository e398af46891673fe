/** Memory admission over whole runs: while the starts on each device are serialised, the running
    services never need more memory than the device has. */
module HubMemory {
  import opened Wrappers
  import opened Behaviours
  import opened HubTypes
  import opened HubStore
  import opened HubStoreLaws
  import opened HubScheduler
  import opened HubMachine
  import opened HubMoves
  import opened HubRuns
  import opened HubDispatch
  import opened HubRequests
  import opened HubSteps
  import opened HubSlots
  import opened HubSafety
  import opened HubLoad
  import opened HubClaims
  import opened Seqs

  // The task decided to start a service, or to make room for one, and has not finished.
  predicate Claiming(task: Task) {
    task.Launching? || task.Restoring? || task.Reclaiming?
  }

  // At most one task of each device is about to start something.
  ghost predicate Serial(h: Hub) {
    forall t, u :: t in h.tasks && u in h.tasks && t != u && Claiming(h.tasks[t]) && Claiming(h.tasks[u]) ==>
      TaskDevice(h, t) != TaskDevice(h, u)
  }

  // A health check that finds a stopped service up reports it running without asking for memory.
  predicate Unadmitted(h: Hub, e: Event) {
    && e.HttpProbed? && e.ok && e.t in h.tasks && h.tasks[e.t].HttpProbing?
    && h.tasks[e.t].svc in h.store.services && h.store.services[h.tasks[e.t].svc].status == Stopped
  }

  ghost predicate Serialised(h: Hub, step: (Event, Moment)) {
    Serial(h) && !Unadmitted(h, step.0) && NoDup(step.1.order)
  }

  ghost predicate SaneSizes(cfg: Config, s: Store) {
    NoDup(cfg.names) && Sized(s.services) && forall n :: n in s.services ==> n in cfg.names
  }

  ghost predicate NotOvercommitted(cfg: Config, s: Store) {
    forall d :: Tracked(cfg, s, d) ==> Room(cfg, s, d) >= 0
  }

  ghost predicate MemoryOk(h: Hub) {
    && SaneSizes(h.cfg, h.store) && NotOvercommitted(h.cfg, h.store)
    && forall t :: t in h.tasks ==> Claims(h, t, TaskDevice(h, t))
  }

  // -- what the acting task claims --------------------------------------------------------

  lemma WorkerClaims(h: Hub, e: Event, m: Moment)
    requires Sound(h) && MemoryOk(h) && NoDup(m.order)
    requires e.Wake? || e.ReclaimStopped? || e.Launched? || e.Answered? || e.OnceStopped? || e.Restored?
    ensures Step(h, e, m) == h || (Actor(e) in h.tasks && Claims(Step(h, e, m), Actor(e), TaskDevice(h, Actor(e))))
  {
    match e
    case Wake(t) =>
      if t in h.tasks && h.tasks[t].Polling? { PollClaims(h, t, TaskDevice(h, t), h.tasks[t].ctx, h.tasks[t].deadline, m); }
    case ReclaimStopped(t, outcome) => if t in h.tasks && h.tasks[t].Reclaiming? { ReclaimedClaims(h, t, outcome, m); }
    case Launched(t, ok) => if t in h.tasks && h.tasks[t].Launching? { AfterLaunchClaims(h, t, ok, m); }
    case Answered(t, ok, payload) => if t in h.tasks && h.tasks[t].Forwarding? { AfterAnswerClaims(h, t, ok, payload, m); }
    case OnceStopped(t, ok) => if t in h.tasks && h.tasks[t].StoppingOnce? { AfterOnceStopClaims(h, t, ok, m); }
    case Restored(t, ok) => if t in h.tasks && h.tasks[t].Restoring? { AfterRestoreClaims(h, t, ok, m); }
  }

  lemma DequeueClaims(h: Hub, t: TaskId, m: Moment)
    requires Sound(h) && NoDup(m.order) && HasWork(h, t)
    ensures Claims(Step(h, Dequeue(t), m), t, t.device)
  {
    assert KnownContext(h.store, t.device, Auto(h.queues[t.device][0].0, h.queues[t.device][0].1));
    DequeuedClaims(h, t, m);
  }

  lemma GrantClaims(h: Hub, t: TaskId, m: Moment)
    requires Sound(h) && NoDup(m.order) && t in h.tasks && h.tasks[t].Locking? && h.tasks[t].ctx.svc !in h.locks
    ensures Claims(Step(h, Grant(t), m), t, TaskDevice(h, t))
  {
    EnsureStartedClaims(h, t, TaskDevice(h, t), h.tasks[t].ctx, m);
  }

  lemma HttpStartIs(h: Hub, t: TaskId, svc: Name, m: Moment)
    requires Shape(h) && t.Http? && t !in h.tasks && svc in h.store.services && h.store.services[svc].status in {Stopped, Error}
    ensures Step(h, HttpStart(t, svc), m) == AcquireLock(h, t, Explicit(svc), m)
  {
  }

  lemma StartClaims(h: Hub, e: Event, m: Moment)
    requires Sound(h) && NoDup(m.order) && (e.Dequeue? || e.Grant? || e.HttpStart?)
    ensures Step(h, e, m) == h || Claims(Step(h, e, m), Actor(e), ActorDevice(h, e))
  {
    match e
    case Dequeue(t) => if HasWork(h, t) { DequeueClaims(h, t, m); }
    case Grant(t) => if t in h.tasks && h.tasks[t].Locking? && h.tasks[t].ctx.svc !in h.locks { GrantClaims(h, t, m); }
    case HttpStart(t, svc) =>
      if t.Http? && t !in h.tasks && svc in h.store.services && h.store.services[svc].status in {Stopped, Error} {
        HttpStartIs(h, t, svc, m);
        AcquireLockClaims(h, t, ServiceDevice(h, svc), Explicit(svc), m);
      }
  }

  lemma StopClaims(h: Hub, e: Event, m: Moment)
    requires Sound(h) && (e.HttpStop? || e.HttpStopped?)
    ensures Step(h, e, m) == h || Claims(Step(h, e, m), Actor(e), ActorDevice(h, e))
  {
  }

  lemma ProbeClaims(h: Hub, e: Event, m: Moment)
    requires Sound(h) && (e.HttpProbe? || e.HttpProbed?)
    ensures Step(h, e, m) == h || Claims(Step(h, e, m), Actor(e), ActorDevice(h, e))
  {
  }

  // A task that acts ends up with a claim that holds, or none.
  lemma ActorClaims(h: Hub, e: Event, m: Moment)
    requires Sound(h) && MemoryOk(h) && NoDup(m.order)
    ensures Step(h, e, m).tasks == h.tasks || Claims(Step(h, e, m), Actor(e), ActorDevice(h, e))
  {
    if e.Dequeue? || e.Grant? || e.HttpStart? {
      StartClaims(h, e, m);
    } else if e.HttpStop? || e.HttpStopped? {
      StopClaims(h, e, m);
    } else if e.HttpProbe? || e.HttpProbed? {
      ProbeClaims(h, e, m);
    } else if e.Wake? || e.ReclaimStopped? || e.Launched? || e.Answered? || e.OnceStopped? || e.Restored? {
      WorkerClaims(h, e, m);
    } else {
      RequestTasks(h, e, m);
    }
  }

  lemma RequestTasks(h: Hub, e: Event, m: Moment)
    requires Sound(h) && (e.Submit? || e.TouchLease? || e.ReserveLease? || e.ReleaseLease? || e.CleanupTick? || e.LookAt?)
    ensures Step(h, e, m).tasks == h.tasks
  {
  }

  // -- what a step does to the running services -------------------------------------------

  // On every device at most the started service is new.
  ghost predicate RunningWithin(s: Store, r: Store, started: set<Name>) {
    && SameSizes(s.services, r.services) && s.devices.Keys == r.devices.Keys
    && forall d :: d in s.devices ==> r.devices[d].running <= s.devices[d].running + started
  }

  lemma MovesRunning(s: Store, r: Devices, sc: Scope)
    requires DevicesMove(s.services, s.devices, r, sc)
    ensures s.devices.Keys == r.Keys && forall d :: d in s.devices ==> r[d].running <= s.devices[d].running + Gains(sc)
  {
    forall d | d in s.devices
      ensures r[d].running <= s.devices[d].running + Gains(sc)
    {
      assert DeviceMoves(s.services, d, s.devices[d], r[d], sc);
    }
  }

  lemma HoldsRunning(s: Store, r: Store)
    requires Holds(s, r)
    ensures RunningWithin(s, r, {})
  {
    forall d | d in s.devices
      ensures r.devices[d].running <= s.devices[d].running
    {
      assert DeviceHolds(s.devices[d], r.devices[d]);
    }
  }

  lemma RunsRunning(h: Hub, from: Hub, r: Hub, t: TaskId, d: Name, sc: Scope)
    requires from.store == h.store && Runs(from, r, t, d, sc)
    ensures RunningWithin(h.store, r.store, Gains(sc))
  {
    MovesRunning(h.store, r.store.devices, sc);
  }

  lemma DispatchRunning(h: Hub, from: Hub, r: Hub, t: TaskId, d: Name, sid: SessionId, mid: Devices, sc: Scope)
    requires from.store == h.store && Dispatches(from, r, t, d, sid, mid, sc)
    ensures RunningWithin(h.store, r.store, Gains(sc))
  {
    MovesRunning(h.store, mid, sc);
  }

  lemma KindRunning(h: Hub, e: Event, r: Hub)
    requires OfFourKinds(h, e, r)
    ensures RunningWithin(h.store, r.store, Gains(EventScope(h, e))) && r.cfg == h.cfg
  {
    if StoreOnly(h, r) {
      HoldsRunning(h.store, r.store);
    } else if TaskDispatches(h, e, r) {
      var mid: Devices :| Dispatches(Popped(h, e), r, Actor(e), ActorDevice(h, e), Dispatching(h, e), mid, EventScope(h, e));
      DispatchRunning(h, Popped(h, e), r, Actor(e), ActorDevice(h, e), Dispatching(h, e), mid, EventScope(h, e));
    } else if TaskRuns(h, e, r) {
      RunsRunning(h, Popped(h, e), r, Actor(e), ActorDevice(h, e), EventScope(h, e));
    } else {
      RunsRunning(h, h, r, Actor(e), ActorDevice(h, e), EventScope(h, e));
    }
  }

  ghost predicate ActorFits(h: Hub, e: Event, r: Hub) {
    Actor(e) in r.tasks ==> KnownTask(r.store, ActorDevice(h, e), r.tasks[Actor(e)]) && RightTask(Actor(e), r.tasks[Actor(e)])
  }

  lemma DispatchOthers(h: Hub, e: Event, r: Hub)
    requires TaskDispatches(h, e, r)
    ensures OthersSame(h.tasks, r.tasks, Actor(e)) && ActorFits(h, e, r)
  {
    var mid: Devices :| Dispatches(Popped(h, e), r, Actor(e), ActorDevice(h, e), Dispatching(h, e), mid, EventScope(h, e));
  }

  lemma KindOthers(h: Hub, e: Event, r: Hub)
    requires OfFourKinds(h, e, r)
    ensures OthersSame(h.tasks, r.tasks, Actor(e))
    ensures r.tasks == h.tasks || ActorFits(h, e, r)
  {
    if TaskDispatches(h, e, r) {
      DispatchOthers(h, e, r);
    }
  }

  // -- rooms and claims -------------------------------------------------------------------

  lemma RoomGrows(cfg: Config, s: Store, r: Store, d: Name)
    requires SaneSizes(cfg, s) && SameSizes(s.services, r.services) && Tracked(cfg, s, d) && d in r.devices
    requires r.devices[d].running <= s.devices[d].running
    ensures Room(cfg, r, d) >= Room(cfg, s, d)
  {
    LoadShrinks(cfg.names, s.devices[d].running, r.devices[d].running, s.services);
    SameLoadSizes(cfg.names, r.devices[d].running, s.services, r.services);
  }

  lemma ProjectionStays(cfg: Config, s: Store, r: Store, d: Name, todo: seq<Name>, projected: int)
    requires SaneSizes(cfg, s) && SameSizes(s.services, r.services) && (d in s.devices <==> d in r.devices)
    requires d in s.devices ==> r.devices[d].running <= s.devices[d].running
    requires Projects(cfg, s, d, todo, projected)
    ensures Projects(cfg, r, d, todo, projected)
  {
    if Tracked(cfg, s, d) {
      FreedGrows(cfg.names, todo, s.devices[d].running, r.devices[d].running, s.services);
      SameLoadSizes(cfg.names, r.devices[d].running, s.services, r.services);
      SameFreedSizes(cfg.names, todo, r.devices[d].running, s.services, r.services);
    }
  }

  // A claim survives what others stop.
  lemma ClaimStays(cfg: Config, s: Store, r: Store, d: Name, task: Task)
    requires SaneSizes(cfg, s) && SameSizes(s.services, r.services) && (d in s.devices <==> d in r.devices)
    requires d in s.devices ==> r.devices[d].running <= s.devices[d].running
    requires ClaimAt(cfg, s, d, task)
    ensures ClaimAt(cfg, r, d, task)
  {
    if task.Reclaiming? {
      ProjectionStays(cfg, s, r, d, task.todo, task.projected);
    } else if Tracked(cfg, s, d) {
      RoomGrows(cfg, s, r, d);
    }
  }

  // The started service fits, because its starter claimed the room.
  lemma RoomForStarted(cfg: Config, s: Store, r: Store, d: Name, svc: Name)
    requires SaneSizes(cfg, s) && SameSizes(s.services, r.services) && Tracked(cfg, s, d) && d in r.devices
    requires r.devices[d].running <= s.devices[d].running + {svc} && RoomFor(cfg, s, d, svc)
    ensures Room(cfg, r, d) >= 0
  {
    LoadGrows(cfg.names, s.devices[d].running, svc, s.services);
    LoadShrinks(cfg.names, s.devices[d].running + {svc}, r.devices[d].running, s.services);
    SameLoadSizes(cfg.names, r.devices[d].running, s.services, r.services);
  }

  // The service a step starts was claimed by the acting task, on the task's device.
  lemma StarterClaimed(h: Hub, e: Event)
    requires Sound(h) && MemoryOk(h) && !Unadmitted(h, e) && Starts(h, e).Some?
    ensures var t := Actor(e);
            && t in h.tasks && Claiming(h.tasks[t]) && RoomFor(h.cfg, h.store, TaskDevice(h, t), Starts(h, e).value)
            && Starts(h, e).value in h.store.services && h.store.services[Starts(h, e).value].def.device == TaskDevice(h, t)
  {
    var t := Actor(e);
    assert KnownTask(h.store, TaskDevice(h, t), h.tasks[t]);
    assert Claims(h, t, TaskDevice(h, t));
  }

  // Running services belong to their device, so a started one is new on its own device only.
  lemma OnlyOwnDevice(h: Hub, e: Event, r: Hub, d: Name)
    requires RunningWithin(h.store, r.store, Gains(EventScope(h, e))) && RunningKnown(r.store.devices, r.store.services)
    requires d in h.store.devices
    requires Starts(h, e).Some? ==> Starts(h, e).value in h.store.services && h.store.services[Starts(h, e).value].def.device != d
    ensures r.store.devices[d].running <= h.store.devices[d].running
  {
    forall n | n in r.store.devices[d].running
      ensures n in h.store.devices[d].running
    {
      assert n in h.store.devices[d].running + Gains(EventScope(h, e));
    }
  }

  lemma StepKeepsRoom(h: Hub, e: Event, r: Hub, d: Name)
    requires Sound(h) && MemoryOk(h) && !Unadmitted(h, e) && Tracked(h.cfg, h.store, d)
    requires RunningWithin(h.store, r.store, Gains(EventScope(h, e))) && RunningKnown(r.store.devices, r.store.services)
    ensures Room(h.cfg, r.store, d) >= 0
  {
    if Starts(h, e).Some? {
      StarterClaimed(h, e);
    }
    if Starts(h, e).Some? && d == TaskDevice(h, Actor(e)) {
      RoomForStarted(h.cfg, h.store, r.store, d, Starts(h, e).value);
    } else {
      OnlyOwnDevice(h, e, r, d);
      RoomGrows(h.cfg, h.store, r.store, d);
    }
  }

  lemma OtherKeepsClaim(h: Hub, e: Event, r: Hub, u: TaskId)
    requires Sound(h) && MemoryOk(h) && Serial(h) && !Unadmitted(h, e) && u in h.tasks && u in r.tasks && r.tasks[u] == h.tasks[u]
    requires RunningWithin(h.store, r.store, Gains(EventScope(h, e))) && RunningKnown(r.store.devices, r.store.services)
    requires r.cfg == h.cfg && (u != Actor(e) || Starts(h, e).None?)
    ensures Claims(r, u, TaskDevice(h, u))
  {
    var d := TaskDevice(h, u);
    assert Claims(h, u, d);
    if Starts(h, e).Some? {
      StarterClaimed(h, e);
    }
    if Starts(h, e).Some? && d == TaskDevice(h, Actor(e)) {
      assert !Claiming(h.tasks[u]);
    } else {
      if d in h.store.devices {
        OnlyOwnDevice(h, e, r, d);
      }
      ClaimStays(h.cfg, h.store, r.store, d, h.tasks[u]);
    }
  }

  // -- every step, and whole runs ---------------------------------------------------------

  lemma LauncherMoves(h: Hub, t: TaskId, m: Moment)
    requires Shape(h) && t in h.tasks && h.tasks[t].Launching? && KnownTask(h.store, TaskDevice(h, t), h.tasks[t])
    ensures AfterLaunch(h, t, true, m).tasks != h.tasks
  {
  }

  lemma RestorerMoves(h: Hub, t: TaskId, m: Moment)
    requires Shape(h) && t in h.tasks && h.tasks[t].Restoring? && KnownTask(h.store, TaskDevice(h, t), h.tasks[t])
    ensures AfterRestore(h, t, true, m).tasks != h.tasks
  {
  }

  // The starter itself cannot keep its claim unchanged: it goes on to something else.
  lemma StarterMoves(h: Hub, e: Event, m: Moment)
    requires Sound(h) && Starts(h, e).Some? && !Unadmitted(h, e)
    ensures Step(h, e, m).tasks != h.tasks || Actor(e) !in h.tasks || !Claiming(h.tasks[Actor(e)])
  {
    if e.Launched? {
      LauncherMoves(h, e.t, m);
    } else if e.Restored? {
      RestorerMoves(h, e.t, m);
    }
  }

  lemma ActorKeepsClaim(h: Hub, e: Event, m: Moment)
    requires Invariant(h) && MemoryOk(h) && NoDup(m.order)
    requires Step(h, e, m).tasks != h.tasks && Actor(e) in Step(h, e, m).tasks
    ensures Claims(Step(h, e, m), Actor(e), TaskDevice(Step(h, e, m), Actor(e)))
  {
    var r := Step(h, e, m);
    ActorClaims(h, e, m);
    StepKind(h, e, m);
    KindOthers(h, e, r);
    OwnTaskDevice(r, Actor(e), ActorDevice(h, e));
  }

  lemma TaskKeepsClaim(h: Hub, e: Event, m: Moment, u: TaskId)
    requires Invariant(h) && MemoryOk(h) && Serialised(h, (e, m)) && u in Step(h, e, m).tasks
    requires RunningWithin(h.store, Step(h, e, m).store, Gains(EventScope(h, e))) && Good(Step(h, e, m).store)
    requires Step(h, e, m).cfg == h.cfg && StoreStays(h.store, Step(h, e, m).store)
    requires OthersSame(h.tasks, Step(h, e, m).tasks, Actor(e))
    ensures Claims(Step(h, e, m), u, TaskDevice(Step(h, e, m), u))
  {
    var r := Step(h, e, m);
    if u == Actor(e) && r.tasks != h.tasks {
      ActorKeepsClaim(h, e, m);
    } else {
      if Starts(h, e).Some? && u == Actor(e) {
        StarterClaimed(h, e);
        StarterMoves(h, e, m);
      }
      TaskDeviceStays(h, r, u);
      OtherKeepsClaim(h, e, r, u);
    }
  }

  /** A step taken while starts are serialised keeps every device within its memory, and every
      claim good. */
  lemma StepKeepsMemory(h: Hub, e: Event, m: Moment)
    requires Invariant(h) && MemoryOk(h) && Serialised(h, (e, m))
    ensures MemoryOk(Step(h, e, m))
  {
    var r := Step(h, e, m);
    StepKind(h, e, m);
    StepKeepsInvariant(h, e, m);
    KindRunning(h, e, r);
    KindOthers(h, e, r);
    KindStays(h, e, r);
    forall d | Tracked(r.cfg, r.store, d)
      ensures Room(r.cfg, r.store, d) >= 0
    {
      StepKeepsRoom(h, e, r, d);
    }
    forall u | u in r.tasks
      ensures Claims(r, u, TaskDevice(r, u))
    {
      TaskKeepsClaim(h, e, m, u);
    }
  }

  // Within memory at the start: nothing is claimed yet.
  lemma FreshMemory(h: Hub)
    requires Fresh(h) && SaneSizes(h.cfg, h.store) && NotOvercommitted(h.cfg, h.store)
    ensures MemoryOk(h)
  {
  }

  lemma NextKeepsMemory(h: Hub, step: (Event, Moment))
    requires Invariant(h) && MemoryOk(h) && Serialised(h, step)
    ensures Invariant(Next(h, step)) && MemoryOk(Next(h, step))
  {
    NextKeepsInvariant(h, step);
    StepKeepsMemory(h, step.0, step.1);
  }

  /** Auto-start, explicit start, ONCE stop, HTTP stop and restore, in any interleaving in which no
      two tasks of a device are about to start something at the same time and no health check
      starts a stopped service: the memory of the running services never exceeds the device's. */
  lemma MemoryNeverOvercommitted(h: Hub, steps: seq<(Event, Moment)>, d: Name)
    requires Fresh(h) && SaneSizes(h.cfg, h.store) && NotOvercommitted(h.cfg, h.store)
    requires Allowed(Serialised, Next, h, steps)
    requires Tracked(Reached(h, steps).cfg, Reached(h, steps).store, d)
    ensures var r := Reached(h, steps);
            Load(r.cfg.names, r.store.devices[d].running, r.store.services) <= r.cfg.capacity[d]
  {
    FreshInvariant(h);
    FreshMemory(h);
    var keep := (x: Hub) => Invariant(x) && MemoryOk(x);
    forall x, e: (Event, Moment) | keep(x) && Serialised(x, e)
      ensures keep(Next(x, e))
    {
      NextKeepsMemory(x, e);
    }
    AlwaysAfterAllowed(keep, Serialised, Next, h, steps);
  }
}
