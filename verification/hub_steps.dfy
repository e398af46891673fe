/** Every step is one of four kinds: it changes no task, a task runs on, a forwarded request
    ends, or a request is dispatched. */
module HubSteps {
  import opened Wrappers
  import opened HubTypes
  import opened HubStore
  import opened HubStoreLaws
  import opened HubScheduler
  import opened HubMoves
  import opened HubMachine
  import opened HubRuns
  import opened HubDispatch
  import opened HubRequests

  function ServiceDevice(h: Hub, svc: Name): Name {
    if svc in h.store.services then h.store.services[svc].def.device else ""
  }

  function Actor(e: Event): TaskId {
    match e
    case Dequeue(t) => t
    case Grant(t) => t
    case Wake(t) => t
    case ReclaimStopped(t, _) => t
    case Launched(t, _) => t
    case Answered(t, _, _) => t
    case OnceStopped(t, _) => t
    case Restored(t, _) => t
    case HttpStart(t, _) => t
    case HttpStop(t, _) => t
    case HttpStopped(t, _) => t
    case HttpProbe(t, _) => t
    case HttpProbed(t, _) => t
    case _ => Http(0)
  }

  // The device the acting task works on.
  function ActorDevice(h: Hub, e: Event): Name {
    var t := Actor(e);
    if t.Worker? then t.device
    else
      match e
      case HttpStart(_, svc) => ServiceDevice(h, svc)
      case HttpStop(_, svc) => ServiceDevice(h, svc)
      case HttpProbe(_, svc) => ServiceDevice(h, svc)
      case _ => if t in h.tasks then TaskDevice(h, t) else ""
  }

  // The service the step may report as started.
  function Starts(h: Hub, e: Event): Option<Name> {
    var t := Actor(e);
    match e
    case Launched(_, ok) => if ok && t in h.tasks && h.tasks[t].Launching? then Some(h.tasks[t].ctx.svc) else None
    case Restored(_, ok) => if ok && t in h.tasks && h.tasks[t].Restoring? then Some(h.tasks[t].svc) else None
    case HttpProbed(_, ok) =>
      if ok && t in h.tasks && h.tasks[t].HttpProbing? && h.tasks[t].svc in h.store.services
         && h.store.services[h.tasks[t].svc].status == Stopped
      then Some(h.tasks[t].svc) else None
    case _ => None
  }

  function EventScope(h: Hub, e: Event): Scope {
    Scope(if Actor(e).Worker? then Some(ActorDevice(h, e)) else None, Starts(h, e))
  }

  // The hub without the queue entry a dequeuing worker takes.
  function Popped(h: Hub, e: Event): Hub {
    match e
    case Dequeue(t) => if HasWork(h, t) then h.(queues := h.queues[t.device := h.queues[t.device][1..]]) else h
    case _ => h
  }

  function Dispatching(h: Hub, e: Event): SessionId {
    match e
    case Dequeue(t) => if HasWork(h, t) then h.queues[t.device][0].1 else ""
    case Grant(t) => if t in h.tasks && h.tasks[t].Locking? then SessionOf(h.tasks[t].ctx) else ""
    case Launched(t, _) => if t in h.tasks && h.tasks[t].Launching? then SessionOf(h.tasks[t].ctx) else ""
    case _ => ""
  }

  ghost predicate Quiescent(h: Hub, e: Event) {
    Actor(e) in h.tasks ==> !h.tasks[Actor(e)].Forwarding?
  }

  // -- the four kinds ---------------------------------------------------------------------

  ghost predicate QueuesGrow(h: Hub, r: Hub) {
    && h.queues.Keys == r.queues.Keys
    && forall d, i :: d in r.queues && 0 <= i < |r.queues[d]| ==>
         (i < |h.queues[d]| && r.queues[d][i] == h.queues[d][i]) || KnownContext(r.store, d, Auto(r.queues[d][i].0, r.queues[d][i].1))
  }

  ghost predicate StoreOnly(h: Hub, r: Hub) {
    r.cfg == h.cfg && r.tasks == h.tasks && QueuesGrow(h, r) && Holds(h.store, r.store)
  }

  ghost predicate TaskRuns(h: Hub, e: Event, r: Hub) {
    Quiescent(h, e) && Runs(Popped(h, e), r, Actor(e), ActorDevice(h, e), EventScope(h, e))
  }

  ghost predicate TaskEnds(h: Hub, e: Event, r: Hub) {
    && Actor(e).Worker? && Actor(e) in h.tasks && h.tasks[Actor(e)].Forwarding?
    && Runs(h, r, Actor(e), ActorDevice(h, e), EventScope(h, e)) && Unloaded(h, r, ActorDevice(h, e))
  }

  ghost predicate TaskDispatches(h: Hub, e: Event, r: Hub) {
    && Quiescent(h, e)
    && exists mid :: Dispatches(Popped(h, e), r, Actor(e), ActorDevice(h, e), Dispatching(h, e), mid, EventScope(h, e))
  }

  ghost predicate OfFourKinds(h: Hub, e: Event, r: Hub) {
    StoreOnly(h, r) || TaskRuns(h, e, r) || TaskEnds(h, e, r) || TaskDispatches(h, e, r)
  }

  // What a step that is not a request can be.
  ghost predicate OfRunKinds(h: Hub, e: Event, r: Hub) {
    r == h || TaskRuns(h, e, r) || TaskEnds(h, e, r) || TaskDispatches(h, e, r)
  }

  // What the steps rely on.
  ghost predicate Sound(h: Hub) {
    Good(h.store) && Shape(h) && forall d :: PendingKnown(h.store, d)
  }

  lemma NothingHappens(h: Hub)
    ensures StoreOnly(h, h)
  {
    SameHolds(h.store);
  }

  lemma RanKind(h: Hub, e: Event, r: Hub)
    requires Quiescent(h, e)
    requires RunsOrDispatches(Popped(h, e), r, Actor(e), ActorDevice(h, e), Dispatching(h, e), EventScope(h, e))
    ensures OfRunKinds(h, e, r)
  {
  }

  lemma SubmittedKind(h: Hub, svc: Name, sid: SessionId, m: Moment)
    ensures StoreOnly(h, Submitted(h, svc, sid, m))
  {
    SubmittedHolds(h, svc, sid, m);
    SubmittedQueues(h, svc, sid, m);
  }

  lemma SubmittedQueues(h: Hub, svc: Name, sid: SessionId, m: Moment)
    ensures QueuesGrow(h, Submitted(h, svc, sid, m))
  {
    var r := Submitted(h, svc, sid, m);
    if r.queues != h.queues {
      var d := h.store.services[svc].def.device;
      assert KnownContext(r.store, d, Auto(svc, sid));
    }
  }

  lemma DequeueKind(h: Hub, t: TaskId, m: Moment)
    requires Sound(h)
    ensures OfRunKinds(h, Dequeue(t), Dequeued(h, t, m))
  {
    if HasWork(h, t) {
      assert KnownContext(h.store, t.device, Auto(h.queues[t.device][0].0, h.queues[t.device][0].1));
      DequeuedRuns(h, t, m, EventScope(h, Dequeue(t)));
      RanKind(h, Dequeue(t), Dequeued(h, t, m));
    }
  }

  lemma GrantKind(h: Hub, t: TaskId, m: Moment)
    requires Sound(h) && t in h.tasks && h.tasks[t].Locking?
    ensures OfRunKinds(h, Grant(t), Granted(h, t, m))
  {
    if h.tasks[t].ctx.svc !in h.locks {
      EnsureStartedRuns(h, t, TaskDevice(h, t), h.tasks[t].ctx, m, EventScope(h, Grant(t)));
      RanKind(h, Grant(t), Granted(h, t, m));
    }
  }

  lemma LaunchedKind(h: Hub, t: TaskId, ok: bool, m: Moment)
    requires Sound(h) && t in h.tasks && h.tasks[t].Launching?
    ensures OfRunKinds(h, Launched(t, ok), AfterLaunch(h, t, ok, m))
  {
    if ok {
      AfterLaunchRuns(h, t, ok, m, EventScope(h, Launched(t, ok)));
    } else {
      GiveUpRuns(h, t, TaskDevice(h, t), h.tasks[t].ctx, m, EventScope(h, Launched(t, ok)));
    }
    RanKind(h, Launched(t, ok), AfterLaunch(h, t, ok, m));
  }

  lemma AnsweredKind(h: Hub, t: TaskId, ok: bool, payload: Payload, m: Moment)
    requires Sound(h) && t in h.tasks && h.tasks[t].Forwarding?
    ensures TaskEnds(h, Answered(t, ok, payload), AfterAnswer(h, t, ok, payload, m))
  {
    var d := TaskDevice(h, t);
    var sc := EventScope(h, Answered(t, ok, payload));
    var Forwarding(svc, sid) := h.tasks[t];
    if ok {
      CompletedEnds(h, t, d, svc, sid, payload, m, sc);
    } else {
      FailSessionRuns(h, t, d, svc, sid, m, sc);
    }
  }

  lemma CompletedEnds(h: Hub, t: TaskId, d: Name, svc: Name, sid: SessionId, payload: Payload, m: Moment, sc: Scope)
    requires PendingKnown(h.store, d) && KnownContext(h.store, d, Auto(svc, sid)) && OnBehalf(t, d, Auto(svc, sid), sc)
    ensures var h1 := h.(store := Completed(h.store, svc, sid, payload, m.now));
            Runs(h, FinishSession(h1, t, svc, sid, m), t, d, sc) && Unloaded(h, FinishSession(h1, t, svc, sid, m), d)
  {
    var h1 := h.(store := Completed(h.store, svc, sid, payload, m.now));
    CompletedMoves(h.store, svc, sid, payload, m.now, sc);
    PendingStays(h.store, h1.store, d, sc);
    FinishSessionRuns(h1, t, d, svc, sid, m, sc);
    RunsAfterStore(h, h1.store, FinishSession(h1, t, svc, sid, m), t, d, sc);
  }

  lemma RestoredKind(h: Hub, t: TaskId, ok: bool, m: Moment)
    requires Sound(h) && t in h.tasks && h.tasks[t].Restoring?
    ensures OfRunKinds(h, Restored(t, ok), AfterRestore(h, t, ok, m))
  {
    if ok {
      AfterRestoreRuns(h, t, ok, m, EventScope(h, Restored(t, ok)));
    } else {
      SetTaskRuns(h, t, TaskDevice(h, t), Dead, EventScope(h, Restored(t, ok)));
    }
  }

  lemma ProbedKind(h: Hub, t: TaskId, ok: bool, m: Moment)
    requires Sound(h) && t in h.tasks && h.tasks[t].HttpProbing?
    ensures OfRunKinds(h, HttpProbed(t, ok), AfterProbe(h, t, ok, m))
  {
    AfterProbeRuns(h, t, ok, m, EventScope(h, HttpProbed(t, ok)));
  }

  lemma HttpStartKind(h: Hub, t: TaskId, svc: Name, m: Moment)
    requires Sound(h) && t.Http? && t !in h.tasks && svc in h.store.services
    requires h.store.services[svc].status in {Stopped, Error}
    ensures OfRunKinds(h, HttpStart(t, svc), AcquireLock(h, t, Explicit(svc), m))
  {
    AcquireLockRuns(h, t, ServiceDevice(h, svc), Explicit(svc), m, EventScope(h, HttpStart(t, svc)));
    RanKind(h, HttpStart(t, svc), AcquireLock(h, t, Explicit(svc), m));
  }

  /** Whatever happens next is of one of the four kinds. */
  lemma StepKind(h: Hub, e: Event, m: Moment)
    requires Sound(h)
    ensures OfFourKinds(h, e, Step(h, e, m))
  {
    NothingHappens(h);
    match e
    case Submit(svc, sid) => SubmittedKind(h, svc, sid, m);
    case TouchLease(_, _, _) => RequestKind(h, e, m);
    case ReserveLease(_, _, _) => RequestKind(h, e, m);
    case ReleaseLease(_, _) => RequestKind(h, e, m);
    case CleanupTick => RequestKind(h, e, m);
    case LookAt(_) => RequestKind(h, e, m);
    case HttpStart(_, _) => HttpKind(h, e, m);
    case HttpStop(_, _) => HttpKind(h, e, m);
    case HttpStopped(_, _) => HttpKind(h, e, m);
    case HttpProbe(_, _) => HttpKind(h, e, m);
    case HttpProbed(_, _) => HttpKind(h, e, m);
    case _ => WorkerKind(h, e, m);
  }

  lemma WorkerKind(h: Hub, e: Event, m: Moment)
    requires Sound(h)
    requires e.Dequeue? || e.Grant? || e.Wake? || e.ReclaimStopped? || e.Launched? || e.Answered? || e.OnceStopped? || e.Restored?
    ensures OfRunKinds(h, e, Step(h, e, m))
  {
    match e
    case Dequeue(t) => DequeueKind(h, t, m);
    case Grant(t) => if t in h.tasks && h.tasks[t].Locking? { GrantKind(h, t, m); }
    case Wake(t) =>
      if t in h.tasks && h.tasks[t].Polling? {
        PollRuns(h, t, TaskDevice(h, t), h.tasks[t].ctx, h.tasks[t].deadline, m, EventScope(h, e));
      }
    case ReclaimStopped(t, outcome) =>
      if t in h.tasks && h.tasks[t].Reclaiming? { ReclaimedRuns(h, t, outcome, m, EventScope(h, e)); }
    case Launched(t, ok) => if t in h.tasks && h.tasks[t].Launching? { LaunchedKind(h, t, ok, m); }
    case Answered(t, ok, payload) => if t in h.tasks && h.tasks[t].Forwarding? { AnsweredKind(h, t, ok, payload, m); }
    case OnceStopped(t, ok) =>
      if t in h.tasks && h.tasks[t].StoppingOnce? { AfterOnceStopRuns(h, t, ok, m, EventScope(h, e)); }
    case Restored(t, ok) => if t in h.tasks && h.tasks[t].Restoring? { RestoredKind(h, t, ok, m); }
  }

  lemma HttpBegins(h: Hub, e: Event, m: Moment)
    requires Sound(h) && (e.HttpStart? || e.HttpStop? || e.HttpProbe?)
    ensures OfRunKinds(h, e, Step(h, e, m))
  {
    match e
    case HttpStart(t, svc) =>
      if t.Http? && t !in h.tasks && svc in h.store.services && h.store.services[svc].status in {Stopped, Error} {
        HttpStartKind(h, t, svc, m);
      }
    case HttpStop(t, svc) =>
      if t.Http? && t !in h.tasks && svc in h.store.services { HttpStopKind(h, t, svc, m); }
    case HttpProbe(t, svc) =>
      if t.Http? && t !in h.tasks && svc in h.store.services { HttpProbeKind(h, t, svc); }
  }

  lemma HttpEnds(h: Hub, e: Event, m: Moment)
    requires Sound(h) && (e.HttpStopped? || e.HttpProbed?)
    ensures OfRunKinds(h, e, Step(h, e, m))
  {
    match e
    case HttpStopped(t, ok) =>
      if t in h.tasks && h.tasks[t].HttpStopping? { HttpStoppedRuns(h, t, ok, m, EventScope(h, e)); }
    case HttpProbed(t, ok) => if t in h.tasks && h.tasks[t].HttpProbing? { ProbedKind(h, t, ok, m); }
  }

  lemma HttpKind(h: Hub, e: Event, m: Moment)
    requires Sound(h)
    requires e.HttpStart? || e.HttpStop? || e.HttpStopped? || e.HttpProbe? || e.HttpProbed?
    ensures OfRunKinds(h, e, Step(h, e, m))
  {
    if e.HttpStopped? || e.HttpProbed? {
      HttpEnds(h, e, m);
    } else {
      HttpBegins(h, e, m);
    }
  }

  lemma HttpStopKind(h: Hub, t: TaskId, svc: Name, m: Moment)
    requires Sound(h) && t.Http? && t !in h.tasks && svc in h.store.services
    ensures OfRunKinds(h, HttpStop(t, svc), StopRequested(h, t, svc, m))
  {
    StopRequestedRuns(h, t, svc, m, EventScope(h, HttpStop(t, svc)));
  }

  lemma HttpProbeKind(h: Hub, t: TaskId, svc: Name)
    requires Sound(h) && t.Http? && t !in h.tasks && svc in h.store.services
    ensures OfRunKinds(h, HttpProbe(t, svc), SetTask(h, t, HttpProbing(svc)))
  {
    SetTaskRuns(h, t, ServiceDevice(h, svc), HttpProbing(svc), EventScope(h, HttpProbe(t, svc)));
  }

  lemma LeaseKind(h: Hub, e: Event, svc: Name, m: Moment)
    requires Sound(h) && svc in h.store.services
    requires match e
             case TouchLease(n, _, _) => n == svc
             case ReserveLease(n, _, _) => n == svc
             case ReleaseLease(n, _) => n == svc
             case _ => false
    ensures Holds(h.store, Step(h, e, m).store)
  {
    match e
    case TouchLease(_, lease, expires) => PlainTouchHolds(h.store, svc, lease, expires, m.now);
    case ReserveLease(_, lease, expires) => ReservedHolds(h.store, svc, lease, expires, m.now);
    case ReleaseLease(_, lease) => ReleaseLeaseHolds(h.store, svc, lease, m.now);
  }

  lemma SweepKind(h: Hub, e: Event, m: Moment)
    requires Sound(h) && (e.CleanupTick? || e.LookAt?)
    ensures Holds(h.store, Step(h, e, m).store)
  {
    if e.LookAt? {
      LookAtHolds(h.store, e.svc, m.now);
    } else {
      CleanupHolds(h.store, m.now);
    }
  }

  lemma OnlyTheStore(h: Hub, s: Store)
    requires Holds(h.store, s)
    ensures StoreOnly(h, h.(store := s))
  {
  }

  // The requests that never wait.
  lemma RequestKind(h: Hub, e: Event, m: Moment)
    requires Sound(h)
    requires e.TouchLease? || e.ReserveLease? || e.ReleaseLease? || e.CleanupTick? || e.LookAt?
    ensures StoreOnly(h, Step(h, e, m))
  {
    var s := Step(h, e, m).store;
    assert Step(h, e, m) == h.(store := s);
    if e.CleanupTick? || e.LookAt? {
      SweepKind(h, e, m);
    } else if e.svc in h.store.services {
      LeaseKind(h, e, e.svc, m);
    } else {
      SameHolds(h.store);
    }
    OnlyTheStore(h, s);
  }
}
