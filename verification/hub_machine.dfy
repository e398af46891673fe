/** The hub as a protocol: every worker and every HTTP handler is a task that runs from one
    await to the next in a single step, and steps of all tasks interleave in any order. */
module HubMachine {
  import opened Wrappers
  import opened HubTypes
  import opened HubStore
  import opened HubScheduler
  import opened Seqs

  // Who wants a service started: a worker for a queued session, or an explicit start request.
  datatype Context = Auto(svc: Name, sid: SessionId) | Explicit(svc: Name)

  // What a task is waiting for.
  datatype Task =
    | Waiting                                          // a worker, for the queue
    | Locking(ctx: Context)                            // the service's start lock
    | Polling(ctx: Context, deadline: Time)            // the pause of the capacity loop
    | Reclaiming(ctx: Context, deadline: Time, todo: seq<Name>, projected: int, reclaimed: seq<Name>) // stop of todo[0]
    | Launching(ctx: Context)                          // start command and health check
    | Forwarding(svc: Name, sid: SessionId)            // the upstream answer
    | StoppingOnce(svc: Name, sid: SessionId)          // stop of a ONCE service after its session
    | Restoring(svc: Name, rest: seq<Name>)            // start of a reclaimed service
    | Dead                                             // a worker whose loop an exception ended
    | HttpStopping(svc: Name)
    | HttpProbing(svc: Name)

  datatype TaskId = Worker(device: Name, index: int) | Http(id: int)

  // names: all configured services; capacity: memory of the devices that report it.
  datatype Config = Config(names: seq<Name>, capacity: map<Name, int>)

  datatype Hub = Hub(
    cfg: Config,
    store: Store,
    queues: map<Name, seq<(Name, SessionId)>>,
    tasks: map<TaskId, Task>,
    locks: map<Name, TaskId>)

  // The clock of a step, and the order in which a set of services is iterated during it.
  datatype Moment = Moment(now: Time, order: seq<Name>)

  datatype Outcome = Succeeds | RaisesRuntimeError | RaisesOther

  // -- what a task refers to --------------------------------------------------------------

  ghost predicate KnownContext(s: Store, d: Name, ctx: Context) {
    && ctx.svc in s.services && s.services[ctx.svc].def.device == d
    && (ctx.Auto? ==> ctx.sid in s.sessions)
  }

  ghost predicate KnownNames(s: Store, d: Name, names: seq<Name>) {
    forall n :: n in names ==> n in s.services && s.services[n].def.device == d
  }

  // A task works on one device: a worker's own, or that of the service of an HTTP request.
  ghost predicate KnownTask(s: Store, d: Name, task: Task) {
    match task
    case Waiting => true
    case Locking(ctx) => KnownContext(s, d, ctx)
    case Polling(ctx, _) => KnownContext(s, d, ctx) && d in s.devices
    case Reclaiming(ctx, _, todo, _, reclaimed) =>
      KnownContext(s, d, ctx) && d in s.devices && todo != [] && KnownNames(s, d, todo) && KnownNames(s, d, reclaimed)
    case Launching(ctx) => KnownContext(s, d, ctx)
    case Forwarding(svc, sid) => KnownContext(s, d, Auto(svc, sid))
    case StoppingOnce(svc, sid) => KnownContext(s, d, Auto(svc, sid))
    case Restoring(svc, rest) => KnownContext(s, d, Explicit(svc)) && KnownNames(s, d, rest)
    case Dead => true
    case HttpStopping(svc) => KnownContext(s, d, Explicit(svc))
    case HttpProbing(svc) => KnownContext(s, d, Explicit(svc))
  }

  // Sessions are run by workers, explicit requests by HTTP handlers.
  predicate RightTask(t: TaskId, task: Task) {
    match task
    case Locking(ctx) => ctx.Auto? <==> t.Worker?
    case Polling(ctx, _) => ctx.Auto? <==> t.Worker?
    case Reclaiming(ctx, _, _, _, _) => ctx.Auto? <==> t.Worker?
    case Launching(ctx) => ctx.Auto? <==> t.Worker?
    case HttpStopping(_) => t.Http?
    case HttpProbing(_) => t.Http?
    case Waiting => t.Worker?
    case Forwarding(_, _) => t.Worker?
    case StoppingOnce(_, _) => t.Worker?
    case Restoring(_, _) => t.Worker?
    case Dead => t.Worker?
  }

  function TaskService(task: Task): Option<Name> {
    match task
    case Waiting => None
    case Dead => None
    case Locking(ctx) => Some(ctx.svc)
    case Polling(ctx, _) => Some(ctx.svc)
    case Reclaiming(ctx, _, _, _, _) => Some(ctx.svc)
    case Launching(ctx) => Some(ctx.svc)
    case Forwarding(svc, _) => Some(svc)
    case StoppingOnce(svc, _) => Some(svc)
    case Restoring(svc, _) => Some(svc)
    case HttpStopping(svc) => Some(svc)
    case HttpProbing(svc) => Some(svc)
  }

  function SetTask(h: Hub, t: TaskId, task: Task): Hub {
    h.(tasks := h.tasks[t := task])
  }

  // A worker goes back to its queue; an HTTP request is answered.
  function Done(h: Hub, t: TaskId): Hub {
    if t.Worker? then SetTask(h, t, Waiting) else h.(tasks := h.tasks - {t})
  }

  function Unlock(h: Hub, svc: Name): Hub {
    h.(locks := h.locks - {svc})
  }

  predicate Fits(h: Hub, d: Name, bytes: int)
    requires d in h.store.devices
  {
    d in h.cfg.capacity ==> Available(h, d) >= bytes
  }

  // The device memory not used by running services.
  function Available(h: Hub, d: Name): int
    requires d in h.store.devices && d in h.cfg.capacity
  {
    h.cfg.capacity[d] - Load(h.cfg.names, h.store.devices[d].running, h.store.services)
  }

  // -- after a session --------------------------------------------------------------------

  function RestoreNext(h: Hub, t: TaskId, d: Name, todo: seq<Name>): Hub
    requires d in h.store.devices
  {
    if todo == [] || !Fits(h, d, Memory(h.store.services, todo[0])) then Done(h, t)
    else SetTask(h, t, Restoring(todo[0], todo[1..]))
  }

  function PendingOf(s: Store, d: Name, sid: SessionId): seq<Name>
    requires d in s.devices
  {
    if sid in s.devices[d].pending then s.devices[d].pending[sid] else []
  }

  function Forgotten(s: Store, d: Name, sid: SessionId): Store
    requires d in s.devices
  {
    PutDevice(s, d, s.devices[d].(pending := s.devices[d].pending - {sid}))
  }

  function BeginRestore(h: Hub, t: TaskId, d: Name, sid: SessionId, m: Moment): Hub {
    if d !in h.store.devices then Done(h, t)
    else
      var h1 := h.(store := Forgotten(h.store, d, sid));
      RestoreNext(h1, t, d, RestoreOrder(h1.store, d, m.now, PendingOf(h.store, d, sid)))
  }

  // The code after try/except/finally.
  function AfterSession(h: Hub, t: TaskId, d: Name, svc: Name, sid: SessionId, m: Moment): Hub
    requires svc in h.store.services
  {
    if h.store.services[svc].def.mode != Once then Done(h, t)
    else
      var h1 := h.(store := Sweep(h.store, {svc}, m.now));
      if HasExternalActivity(h.store, svc, m.now) then BeginRestore(h1, t, d, sid, m)
      else SetTask(h1, t, StoppingOnce(svc, sid))
  }

  function FinishSession(h: Hub, t: TaskId, svc: Name, sid: SessionId, m: Moment): Hub
    requires svc in h.store.services && sid in h.store.sessions
  {
    var d := h.store.services[svc].def.device;
    AfterSession(h.(store := Finally(h.store, d, svc, sid, m.now)), t, d, svc, sid, m)
  }

  function FailSession(h: Hub, t: TaskId, svc: Name, sid: SessionId, m: Moment): Hub
    requires svc in h.store.services && sid in h.store.sessions
  {
    FinishSession(h.(store := Broken(h.store, svc, sid, m.now)), t, svc, sid, m)
  }

  // -- before a session -------------------------------------------------------------------

  // The early return of a busy device: the finally clause runs, the rest does not.
  function TurnAway(h: Hub, t: TaskId, svc: Name, sid: SessionId, m: Moment): Hub
    requires svc in h.store.services && sid in h.store.sessions
  {
    var d := h.store.services[svc].def.device;
    Done(h.(store := Finally(h.store, d, svc, sid, m.now)), t)
  }

  // From the second busy check to the upstream call.
  function TryDispatch(h: Hub, t: TaskId, svc: Name, sid: SessionId, m: Moment): Hub
    requires svc in h.store.services && sid in h.store.sessions
  {
    var d := h.store.services[svc].def.device;
    var (s1, busy) := AbortIfBusy(h.store, d, sid, m.now);
    if busy then TurnAway(h.(store := s1), t, svc, sid, m)
    else SetTask(h.(store := Dispatched(s1, d, svc, sid, m.now)), t, Forwarding(svc, sid))
  }

  function Launch(h: Hub, t: TaskId, ctx: Context): Hub
    requires ctx.svc in h.store.services && (ctx.Auto? ==> ctx.sid in h.store.sessions)
  {
    var s1 := PutService(h.store, ctx.svc, h.store.services[ctx.svc].(status := Starting));
    var s2 := if ctx.Auto? then PutSession(s1, ctx.sid, s1.sessions[ctx.sid].(status := SessionStarting)) else s1;
    SetTask(h.(store := s2), t, Launching(ctx))
  }

  function WithWaiting(s: Store, d: Name, svc: Name, waits: bool): Store
    requires d in s.devices
  {
    var rt := s.devices[d];
    PutDevice(s, d, rt.(waiting := if waits then rt.waiting + {svc} else rt.waiting - {svc}))
  }

  function SetWaiting(h: Hub, d: Name, svc: Name, waits: bool): Hub
    requires d in h.store.devices
  {
    h.(store := WithWaiting(h.store, d, svc, waits))
  }

  function Admit(h: Hub, t: TaskId, d: Name, ctx: Context): Hub
    requires d in h.store.devices
    requires ctx.svc in h.store.services && (ctx.Auto? ==> ctx.sid in h.store.sessions)
  {
    Launch(SetWaiting(h, d, ctx.svc, false), t, ctx)
  }

  // An exception inside the locked part of the start.
  function GiveUp(h: Hub, t: TaskId, ctx: Context, m: Moment): Hub
    requires ctx.svc in h.store.services && (ctx.Auto? ==> ctx.sid in h.store.sessions)
  {
    var h1 := Unlock(h, ctx.svc);
    match ctx
    case Auto(svc, sid) => FailSession(h1, t, svc, sid, m)
    case Explicit(_) => Done(h1, t)
  }

  // Not enough memory: the first candidate is being stopped, or there is none.
  function LookForRoom(h: Hub, t: TaskId, d: Name, ctx: Context, deadline: Time, m: Moment): Hub
    requires d in h.store.devices && d in h.cfg.capacity
  {
    var swept := Sweep(h.store, Probed(h.store, d, ctx.svc), m.now);
    var todo := Candidates(swept, d, ctx.svc, m.order);
    SetTask(h.(store := swept), t,
      if todo == [] then Polling(ctx, deadline) else Reclaiming(ctx, deadline, todo, Available(h, d), []))
  }

  // One look of the capacity loop at the device memory.
  function Poll(h: Hub, t: TaskId, d: Name, ctx: Context, deadline: Time, m: Moment): Hub
    requires d in h.store.devices
    requires ctx.svc in h.store.services && (ctx.Auto? ==> ctx.sid in h.store.sessions)
  {
    if m.now >= deadline then GiveUp(SetWaiting(h, d, ctx.svc, false), t, ctx, m)
    else if d !in h.cfg.capacity || Available(h, d) >= h.store.services[ctx.svc].def.memory then Admit(h, t, d, ctx)
    else LookForRoom(h, t, d, ctx, deadline, m)
  }

  // The service is up: a worker goes on to its busy check, a start request is answered.
  function Proceed(h: Hub, t: TaskId, ctx: Context, m: Moment): Hub
    requires ctx.svc in h.store.services && (ctx.Auto? ==> ctx.sid in h.store.sessions)
  {
    match ctx
    case Auto(svc, sid) => TryDispatch(h, t, svc, sid, m)
    case Explicit(_) => Done(h, t)
  }

  function WaitForMemory(h: Hub, t: TaskId, d: Name, ctx: Context, m: Moment): Hub
    requires d in h.store.devices
    requires ctx.svc in h.store.services && (ctx.Auto? ==> ctx.sid in h.store.sessions)
  {
    Poll(SetWaiting(h, d, ctx.svc, true), t, d, ctx, m.now + h.store.devices[d].def.schedulingTimeout * SECOND, m)
  }

  // The service is down: start it, where memory is tracked once there is room.
  function ColdStart(h: Hub, t: TaskId, ctx: Context, m: Moment): Hub
    requires ctx.svc in h.store.services && (ctx.Auto? ==> ctx.sid in h.store.sessions)
  {
    var d := h.store.services[ctx.svc].def.device;
    var h1 := h.(locks := h.locks[ctx.svc := t]);
    if d !in h.store.devices || d !in h.cfg.capacity then Launch(h1, t, ctx) else WaitForMemory(h1, t, d, ctx, m)
  }

  // _ensure_service_started, once the lock is free.
  function EnsureStarted(h: Hub, t: TaskId, ctx: Context, m: Moment): Hub
    requires ctx.svc in h.store.services && (ctx.Auto? ==> ctx.sid in h.store.sessions)
  {
    if h.store.services[ctx.svc].status !in {Stopped, Error} then Proceed(h, t, ctx, m) else ColdStart(h, t, ctx, m)
  }

  function AcquireLock(h: Hub, t: TaskId, ctx: Context, m: Moment): Hub
    requires ctx.svc in h.store.services && (ctx.Auto? ==> ctx.sid in h.store.sessions)
  {
    if ctx.svc in h.locks then SetTask(h, t, Locking(ctx)) else EnsureStarted(h, t, ctx, m)
  }

  // -- steps ------------------------------------------------------------------------------

  datatype Event =
    | Submit(svc: Name, sid: SessionId)
    | Dequeue(t: TaskId)
    | Grant(t: TaskId)
    | Wake(t: TaskId)
    | ReclaimStopped(t: TaskId, outcome: Outcome)
    | Launched(t: TaskId, ok: bool)
    | Answered(t: TaskId, ok: bool, payload: Payload)
    | OnceStopped(t: TaskId, ok: bool)
    | Restored(t: TaskId, ok: bool)
    | TouchLease(svc: Name, lease: LeaseId, expires: Time)
    | ReserveLease(svc: Name, lease: LeaseId, expires: Time)
    | ReleaseLease(svc: Name, lease: LeaseId)
    | CleanupTick
    | LookAt(svc: Name)
    | HttpStart(t: TaskId, svc: Name)
    | HttpStop(t: TaskId, svc: Name)
    | HttpStopped(t: TaskId, ok: bool)
    | HttpProbe(t: TaskId, svc: Name)
    | HttpProbed(t: TaskId, ok: bool)

  // Dispatcher.submit and the queue.
  function Submitted(h: Hub, svc: Name, sid: SessionId, m: Moment): Hub {
    if svc !in h.store.services || sid in h.store.sessions || h.store.services[svc].def.device !in h.queues then h
    else
      var d := h.store.services[svc].def.device;
      var (s1, ok) := CanAccept(h.store, d, m.now);
      if !ok then h.(store := s1)
      else h.(store := CreateSession(s1, svc, sid, m.now), queues := h.queues[d := h.queues[d] + [(svc, sid)]])
  }

  predicate HasWork(h: Hub, t: TaskId) {
    && t.Worker? && t in h.tasks && h.tasks[t] == Waiting
    && t.device in h.queues && h.queues[t.device] != []
    && h.queues[t.device][0].0 in h.store.services && h.queues[t.device][0].1 in h.store.sessions
  }

  // The first busy check, and on towards the start of the service.
  function Receive(h: Hub, t: TaskId, svc: Name, sid: SessionId, m: Moment): Hub
    requires svc in h.store.services && sid in h.store.sessions
  {
    var (s1, busy) := AbortIfBusy(h.store, h.store.services[svc].def.device, sid, m.now);
    if busy then TurnAway(h.(store := s1), t, svc, sid, m) else AcquireLock(h.(store := s1), t, Auto(svc, sid), m)
  }

  // The queue size goes down whether or not a lease already took the session off it.
  function TakenOff(s: Store, svc: Name): Store
    requires svc in s.services
  {
    PutService(s, svc, s.services[svc].(queueSize := s.services[svc].queueSize - 1))
  }

  // A worker takes the next session and runs up to its first await.
  function Dequeued(h: Hub, t: TaskId, m: Moment): Hub {
    if !HasWork(h, t) then h
    else
      var (svc, sid) := h.queues[t.device][0];
      var h1 := h.(queues := h.queues[t.device := h.queues[t.device][1..]], store := TakenOff(h.store, svc));
      Receive(h1, t, svc, sid, m)
  }

  function Granted(h: Hub, t: TaskId, m: Moment): Hub
    requires t in h.tasks && h.tasks[t].Locking?
    requires KnownTask(h.store, TaskDevice(h, t), h.tasks[t])
  {
    var ctx := h.tasks[t].ctx;
    if ctx.svc in h.locks then h else EnsureStarted(h, t, ctx, m)
  }

  // The device a task works on.
  function TaskDevice(h: Hub, t: TaskId): Name
    requires t in h.tasks
  {
    if t.Worker? then t.device
    else
      var svc := TaskService(h.tasks[t]);
      if svc.Some? && svc.value in h.store.services then h.store.services[svc.value].def.device else ""
  }

  function NoteReclaimed(s: Store, n: Name, sid: SessionId): Store
    requires n in s.services
  {
    PutService(s, n, s.services[n].(reclaimedFor := s.services[n].reclaimedFor + {sid}))
  }

  function NotePending(s: Store, d: Name, sid: SessionId, reclaimed: seq<Name>): Store
    requires d in s.devices
  {
    PutDevice(s, d, s.devices[d].(pending := s.devices[d].pending[sid := reclaimed]))
  }

  function StopForReclaim(s: Store, ctx: Context, n: Name, now: Time): Store
    requires n in s.services
  {
    var s1 := MarkStopped(s, n, now);
    if ctx.Auto? then NoteReclaimed(s1, n, ctx.sid) else s1
  }

  // The reclaim loop after a successful stop: enough memory, or the next candidate, or none left.
  function ReclaimOn(h: Hub, t: TaskId, d: Name, ctx: Context, deadline: Time, todo: seq<Name>, freed: int, names: seq<Name>): Hub
    requires d in h.store.devices && todo != []
    requires ctx.svc in h.store.services && (ctx.Auto? ==> ctx.sid in h.store.sessions)
  {
    if freed >= h.store.services[ctx.svc].def.memory then
      var s1 := if ctx.Auto? then NotePending(h.store, d, ctx.sid, names) else h.store;
      Admit(h.(store := s1), t, d, ctx)
    else
      SetTask(h, t, if |todo| == 1 then Polling(ctx, deadline) else Reclaiming(ctx, deadline, todo[1..], freed, names))
  }

  // One candidate of the reclaim loop has been stopped, or its stop command failed.
  function Reclaimed(h: Hub, t: TaskId, outcome: Outcome, m: Moment): Hub
    requires t in h.tasks && h.tasks[t].Reclaiming?
    requires KnownTask(h.store, TaskDevice(h, t), h.tasks[t])
  {
    var d := TaskDevice(h, t);
    var Reclaiming(ctx, deadline, todo, projected, reclaimed) := h.tasks[t];
    match outcome
    case RaisesRuntimeError => SetTask(h, t, Polling(ctx, deadline))
    case RaisesOther => GiveUp(SetWaiting(h, d, ctx.svc, false), t, ctx, m)
    case Succeeds =>
      var s1 := StopForReclaim(h.store, ctx, todo[0], m.now);
      var freed := projected + s1.services[todo[0]].def.memory;
      ReclaimOn(h.(store := s1), t, d, ctx, deadline, todo, freed, reclaimed + [todo[0]])
  }

  function AfterLaunch(h: Hub, t: TaskId, ok: bool, m: Moment): Hub
    requires t in h.tasks && h.tasks[t].Launching?
    requires KnownTask(h.store, TaskDevice(h, t), h.tasks[t])
  {
    var ctx := h.tasks[t].ctx;
    if !ok then GiveUp(h, t, ctx, m)
    else
      Proceed(Unlock(h.(store := MarkStarted(h.store, ctx.svc, m.now)), ctx.svc), t, ctx, m)
  }

  function AfterAnswer(h: Hub, t: TaskId, ok: bool, payload: Payload, m: Moment): Hub
    requires t in h.tasks && h.tasks[t].Forwarding?
    requires KnownTask(h.store, TaskDevice(h, t), h.tasks[t])
  {
    var Forwarding(svc, sid) := h.tasks[t];
    if ok then FinishSession(h.(store := Completed(h.store, svc, sid, payload, m.now)), t, svc, sid, m)
    else FailSession(h, t, svc, sid, m)
  }

  // A failing stop or restore raises out of the worker's loop.
  function AfterOnceStop(h: Hub, t: TaskId, ok: bool, m: Moment): Hub
    requires t in h.tasks && h.tasks[t].StoppingOnce?
    requires KnownTask(h.store, TaskDevice(h, t), h.tasks[t])
  {
    var StoppingOnce(svc, sid) := h.tasks[t];
    if !ok then SetTask(h, t, Dead)
    else BeginRestore(h.(store := MarkStopped(h.store, svc, m.now)), t, TaskDevice(h, t), sid, m)
  }

  function AfterRestore(h: Hub, t: TaskId, ok: bool, m: Moment): Hub
    requires t in h.tasks && h.tasks[t].Restoring?
    requires KnownTask(h.store, TaskDevice(h, t), h.tasks[t])
  {
    var Restoring(svc, rest) := h.tasks[t];
    if !ok then SetTask(h, t, Dead)
    else
      var h1 := h.(store := MarkStarted(h.store, svc, m.now));
      var d := TaskDevice(h, t);
      if d in h1.store.devices then RestoreNext(h1, t, d, rest) else Done(h1, t)
  }

  // One turn of the reserving wait loop, and the sweep behind the lease count of the answer.
  function Reserved(s: Store, svc: Name, lease: LeaseId, expires: Time, now: Time): Store
    requires svc in s.services
  {
    var d := s.services[svc].def.device;
    if d !in s.devices then s
    else
      var (s1, ready) := ReserveReady(s, d, svc, lease, now, now);
      if !ready then s1 else Sweep(Touch(s1, svc, lease, expires, true, now, now).0, {svc}, now)
  }

  function StopRequested(h: Hub, t: TaskId, svc: Name, m: Moment): Hub
    requires svc in h.store.services
  {
    var s1 := Sweep(h.store, {svc}, m.now);
    var rt := s1.services[svc];
    if rt.leases != map[] || rt.activeSession.Some? || rt.status == Stopped then h.(store := s1)
    else SetTask(h.(store := PutService(s1, svc, rt.(status := Stopping))), t, HttpStopping(svc))
  }

  function AfterProbe(h: Hub, t: TaskId, ok: bool, m: Moment): Hub
    requires t in h.tasks && h.tasks[t].HttpProbing?
    requires KnownTask(h.store, TaskDevice(h, t), h.tasks[t])
  {
    var svc := h.tasks[t].svc;
    if !ok then Done(h, t)
    else if h.store.services[svc].status == Stopped then Done(h.(store := MarkStarted(h.store, svc, m.now)), t)
    else
      var s1 := Sweep(h.store, {svc}, m.now);
      Done(h.(store := PutService(s1, svc,
        s1.services[svc].(status := if s1.services[svc].leases != map[] then External else Idle))), t)
  }

  // The references every step relies on, and keeps.
  ghost predicate Shape(h: Hub) {
    && (forall t :: t in h.tasks ==> KnownTask(h.store, TaskDevice(h, t), h.tasks[t]) && RightTask(t, h.tasks[t]))
    && (forall d, i :: d in h.queues && 0 <= i < |h.queues[d]| ==>
          KnownContext(h.store, d, Auto(h.queues[d][i].0, h.queues[d][i].1)))
  }

  /** One step. An event that cannot happen in the state it is given leaves the hub as it is. */
  function Step(h: Hub, e: Event, m: Moment): Hub
    requires Shape(h)
  {
    match e
    case Submit(svc, sid) => Submitted(h, svc, sid, m)
    case Dequeue(t) => Dequeued(h, t, m)
    case Grant(t) => if t in h.tasks && h.tasks[t].Locking? then Granted(h, t, m) else h
    case Wake(t) =>
      if t in h.tasks && h.tasks[t].Polling? then Poll(h, t, TaskDevice(h, t), h.tasks[t].ctx, h.tasks[t].deadline, m) else h
    case ReclaimStopped(t, outcome) => if t in h.tasks && h.tasks[t].Reclaiming? then Reclaimed(h, t, outcome, m) else h
    case Launched(t, ok) => if t in h.tasks && h.tasks[t].Launching? then AfterLaunch(h, t, ok, m) else h
    case Answered(t, ok, payload) =>
      if t in h.tasks && h.tasks[t].Forwarding? then AfterAnswer(h, t, ok, payload, m) else h
    case OnceStopped(t, ok) => if t in h.tasks && h.tasks[t].StoppingOnce? then AfterOnceStop(h, t, ok, m) else h
    case Restored(t, ok) => if t in h.tasks && h.tasks[t].Restoring? then AfterRestore(h, t, ok, m) else h
    case TouchLease(svc, lease, expires) =>
      if svc in h.store.services
      then h.(store := Sweep(Touch(h.store, svc, lease, expires, false, m.now, m.now).0, {svc}, m.now)) else h
    case ReserveLease(svc, lease, expires) => if svc in h.store.services then h.(store := Reserved(h.store, svc, lease, expires, m.now)) else h
    case ReleaseLease(svc, lease) =>
      if svc in h.store.services then h.(store := Sweep(Release(h.store, svc, lease), {svc}, m.now)) else h
    case CleanupTick => h.(store := Cleanup(h.store, m.now))
    case LookAt(svc) => h.(store := Sweep(Cleanup(h.store, m.now), {svc}, m.now))
    case HttpStart(t, svc) =>
      if t.Http? && t !in h.tasks && svc in h.store.services && h.store.services[svc].status in {Stopped, Error}
      then AcquireLock(h, t, Explicit(svc), m) else h
    case HttpStop(t, svc) =>
      if t.Http? && t !in h.tasks && svc in h.store.services then StopRequested(h, t, svc, m) else h
    case HttpStopped(t, ok) =>
      if t in h.tasks && h.tasks[t].HttpStopping?
      then Done(if ok then h.(store := MarkStopped(h.store, h.tasks[t].svc, m.now)) else h, t) else h
    case HttpProbe(t, svc) =>
      if t.Http? && t !in h.tasks && svc in h.store.services then SetTask(h, t, HttpProbing(svc)) else h
    case HttpProbed(t, ok) => if t in h.tasks && h.tasks[t].HttpProbing? then AfterProbe(h, t, ok, m) else h
  }
}
