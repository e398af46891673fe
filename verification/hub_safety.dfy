/** The hub from its start, over any number of steps. */
module HubSafety {
  import opened Behaviours
  import opened Wrappers
  import opened HubTypes
  import opened HubStore
  import opened HubStoreLaws
  import opened HubScheduler
  import opened HubMoves
  import opened HubMachine
  import opened HubRuns
  import opened HubDispatch
  import opened HubRequests
  import opened HubSteps
  import opened HubSlots
  import opened HubSessions

  // A hub just after start-up: fresh records, services found healthy reported as running, and
  // every worker at its queue.
  ghost predicate Fresh(h: Hub) {
    && h.store.sessions == map[] && h.store.results == map[] && h.locks == map[]
    && (forall d :: d in h.store.devices ==> FreshDevice(h.store.devices[d]))
    && (forall n :: n in h.store.services ==> FreshService(h.store.services[n]))
    && RunningKnown(h.store.devices, h.store.services) && StoppedNotRunning(h.store.devices, h.store.services)
    && (forall d :: d in h.queues ==> h.queues[d] == [])
    && (forall t :: t in h.tasks ==> t.Worker? && h.tasks[t] == Waiting)
    && Placed(h)
  }

  ghost predicate FreshDevice(rt: DeviceRuntime) {
    rt.def.maxConcurrency > 0 && rt.active == 0 && rt.slots == map[] && rt.pending == map[]
  }

  ghost predicate FreshService(rt: ServiceRuntime) {
    rt.status in {Stopped, Idle} && rt.leases == map[] && rt.inflight == 0
  }

  lemma {:induction false} NoForwarders(tasks: map<TaskId, Task>, d: Name, n: int)
    requires forall t :: t in tasks ==> !tasks[t].Forwarding?
    ensures Forwarders(tasks, d, n) == 0
  {
    if n > 0 {
      NoForwarders(tasks, d, n - 1);
    }
  }

  lemma FreshInvariant(h: Hub)
    requires Fresh(h)
    ensures Invariant(h)
  {
    forall n | n in h.store.services
      ensures StatusHonest(h.store.services[n])
    {
      assert FreshService(h.store.services[n]);
    }
    forall d | d in h.store.devices
      ensures DeviceBounded(h.store.devices[d]) && DeviceCounted(h, d)
    {
      assert FreshDevice(h.store.devices[d]);
      NoForwarders(h.tasks, d, h.store.devices[d].def.maxConcurrency);
    }
    forall d | d in h.store.devices
      ensures h.store.devices[d].slots == map[]
    {
      assert FreshDevice(h.store.devices[d]);
    }
    forall d
      ensures PendingKnown(h.store, d)
    {
      if d in h.store.devices {
        assert FreshDevice(h.store.devices[d]);
      }
    }
  }

  // One step, of a hub whose tasks refer to what is there; any other hub is not looked at.
  ghost function Next(h: Hub, step: (Event, Moment)): Hub {
    if Shape(h) then Step(h, step.0, step.1) else h
  }

  // The hub after any steps.
  ghost function Reached(h: Hub, steps: seq<(Event, Moment)>): Hub {
    After(Next, h, steps)
  }

  lemma ReachedOne(h: Hub, e: Event, m: Moment, r: Hub, steps: seq<(Event, Moment)>)
    requires Shape(h) && Step(h, e, m) == r
    ensures Reached(h, [(e, m)] + steps) == Reached(r, steps)
  {
    assert ([(e, m)] + steps)[1..] == steps;
  }

  lemma NextKeepsInvariant(h: Hub, step: (Event, Moment))
    requires Invariant(h)
    ensures Invariant(Next(h, step))
  {
    StepKeepsInvariant(h, step.0, step.1);
  }

  lemma ReachedStep(h: Hub, e: Event, m: Moment, steps: seq<(Event, Moment)>)
    requires Invariant(h)
    ensures Invariant(Step(h, e, m)) && Reached(h, [(e, m)] + steps) == Reached(Step(h, e, m), steps)
  {
    StepKeepsInvariant(h, e, m);
    ReachedOne(h, e, m, Step(h, e, m), steps);
  }

  /** The invariant holds in every state the hub can reach from a fresh start. */
  lemma InvariantReached(h: Hub, steps: seq<(Event, Moment)>)
    requires Fresh(h)
    ensures Invariant(Reached(h, steps))
  {
    FreshInvariant(h);
    forall x, e: (Event, Moment) | Invariant(x)
      ensures Invariant(Next(x, e))
    {
      NextKeepsInvariant(x, e);
    }
    AlwaysAfter(Invariant, Next, h, steps);
  }

  /** Slot safety, whatever the tasks do and in whatever order: the proxy requests counted on a
      device are covered by workers that wait for an answer, of which there are at most
      max_concurrency; reserved slots alone stay within max_concurrency; so the device is never
      booked more than twice over. On a single-slot device the count is exact. */
  lemma SlotSafety(h: Hub, steps: seq<(Event, Moment)>, d: Name)
    requires Fresh(h) && d in Reached(h, steps).store.devices
    ensures var r := Reached(h, steps);
            var rt := r.store.devices[d];
            && 0 <= rt.active <= Serving(r, d) <= rt.def.maxConcurrency
            && |rt.slots| <= rt.def.maxConcurrency
            && Used(r.store, d) <= 2 * rt.def.maxConcurrency
            && (rt.def.maxConcurrency == 1 ==> rt.active == Serving(r, d))
  {
    InvariantReached(h, steps);
    var r := Reached(h, steps);
    assert DeviceBounded(r.store.devices[d]) && DeviceCounted(r, d);
    ForwardersBounds(r.tasks, d, r.store.devices[d].def.maxConcurrency);
  }

  // Each reserved slot sits on its service's device and carries the expiry of its lease, EXTERNAL
  // means a lease, STOPPED means not running.
  ghost predicate LeasesSafe(s: Store) {
    && (forall d, k :: d in s.devices && k in s.devices[d].slots ==>
          SlotHasLease(s.services, d, k, s.devices[d].slots[k]))
    && (forall n :: n in s.services && s.services[n].status == External ==> s.services[n].leases != map[])
    && (forall d, n :: d in s.devices && n in s.devices[d].running ==>
          n in s.services && s.services[n].def.device == d && s.services[n].status != Stopped)
  }

  lemma GoodLeases(s: Store)
    requires Good(s)
    ensures LeasesSafe(s)
  {
    forall n | n in s.services && s.services[n].status == External
      ensures s.services[n].leases != map[]
    {
      assert StatusHonest(s.services[n]);
    }
  }

  lemma InvariantLeases(h: Hub)
    requires Invariant(h)
    ensures LeasesSafe(h.store)
  {
    GoodLeases(h.store);
  }

  /** Every reachable state couples slots, leases and statuses. */
  lemma LeaseSafety(h: Hub, steps: seq<(Event, Moment)>)
    requires Fresh(h)
    ensures LeasesSafe(Reached(h, steps).store)
  {
    InvariantReached(h, steps);
    InvariantLeases(Reached(h, steps));
  }

  // -- the bound that only an unchecked dispatch breaks -----------------------------------

  // The step dispatches, on device d, a session that was not QUEUED when it was checked last.
  ghost predicate UncheckedDispatch(h: Hub, e: Event, r: Hub, d: Name) {
    var t := Actor(e);
    && t.Worker? && t.device == d
    && IsForwarding(h.tasks, t) == 0 && IsForwarding(r.tasks, t) == 1
    && r.tasks[t].sid in h.store.sessions && h.store.sessions[r.tasks[t].sid].status != Queued
  }

  // Where the bound breaks.
  ghost predicate BreaksIff(h: Hub, e: Event, r: Hub, d: Name) {
    && d in h.store.devices && d in r.store.devices
    && (Used(r.store, d) > h.store.devices[d].def.maxConcurrency <==>
        UncheckedDispatch(h, e, r, d) && Used(h.store, d) == h.store.devices[d].def.maxConcurrency)
  }

  lemma MovesUsed(h: Hub, r: Hub, sc: Scope, d: Name)
    requires d in h.store.devices && DevicesMove(h.store.services, h.store.devices, r.store.devices, sc)
    ensures d in r.store.devices && Used(r.store, d) <= Used(h.store, d)
  {
    assert DeviceMoves(h.store.services, d, h.store.devices[d], r.store.devices[d], sc);
    SubmapSize(h.store.devices[d].slots, r.store.devices[d].slots);
  }

  lemma CountUpUsed(services: Services, devices: Devices, mid: Devices, r: Devices, own: Name, d: Name, queued: bool, sc: Scope)
    requires DevicesMove(services, devices, mid, sc) && OneMore(mid, r, own) && Checked(devices, mid, own, queued)
    requires d in devices && UsedOf(devices[d]) <= devices[d].def.maxConcurrency
    ensures d in r
    ensures UsedOf(r[d]) > devices[d].def.maxConcurrency <==>
            d == own && !queued && UsedOf(devices[d]) == devices[d].def.maxConcurrency
  {
    assert DeviceMoves(services, d, devices[d], mid[d], sc);
    SubmapSize(devices[d].slots, mid[d].slots);
  }

  lemma DispatchUsed(h: Hub, from: Hub, r: Hub, e: Event, d: Name, sid: SessionId, mid: Devices, sc: Scope)
    requires from.store == h.store && from.tasks == h.tasks
    requires d in h.store.devices && Used(h.store, d) <= h.store.devices[d].def.maxConcurrency
    requires IsForwarding(h.tasks, Actor(e)) == 0 && Actor(e).Worker?
    requires Dispatches(from, r, Actor(e), Actor(e).device, sid, mid, sc)
    ensures BreaksIff(h, e, r, d)
  {
    CountUpUsed(h.store.services, h.store.devices, mid, r.store.devices, Actor(e).device, d,
                h.store.sessions[sid].status == Queued, sc);
  }

  ghost predicate StaysUsed(h: Hub, e: Event, r: Hub, d: Name) {
    && d in h.store.devices && d in r.store.devices && Used(r.store, d) <= h.store.devices[d].def.maxConcurrency
    && !UncheckedDispatch(h, e, r, d)
  }

  lemma RequestUsed(h: Hub, e: Event, r: Hub, d: Name)
    requires StoreOnly(h, r) && d in h.store.devices && Used(h.store, d) <= h.store.devices[d].def.maxConcurrency
    ensures StaysUsed(h, e, r, d)
  {
    assert DeviceHolds(h.store.devices[d], r.store.devices[d]);
  }

  lemma RunUsed(h: Hub, e: Event, r: Hub, d: Name)
    requires TaskRuns(h, e, r) && d in h.store.devices && Used(h.store, d) <= h.store.devices[d].def.maxConcurrency
    ensures StaysUsed(h, e, r, d)
  {
    MovesUsed(h, r, EventScope(h, e), d);
  }

  lemma EndUsed(h: Hub, e: Event, r: Hub, d: Name)
    requires TaskEnds(h, e, r) && d in h.store.devices && Used(h.store, d) <= h.store.devices[d].def.maxConcurrency
    ensures StaysUsed(h, e, r, d)
  {
    MovesUsed(h, r, EventScope(h, e), d);
  }

  lemma StaysBreaksNothing(h: Hub, e: Event, r: Hub, d: Name)
    requires StaysUsed(h, e, r, d)
    ensures BreaksIff(h, e, r, d)
  {
  }

  lemma DispatcherIs(h: Hub, e: Event, r: Hub)
    requires TaskDispatches(h, e, r)
    ensures Actor(e).Worker? && ActorDevice(h, e) == Actor(e).device && IsForwarding(h.tasks, Actor(e)) == 0
    ensures Popped(h, e).store == h.store && Popped(h, e).tasks == h.tasks
  {
  }

  lemma TaskDispatchUsed(h: Hub, e: Event, r: Hub, d: Name)
    requires TaskDispatches(h, e, r) && d in h.store.devices
    requires Used(h.store, d) <= h.store.devices[d].def.maxConcurrency
    ensures BreaksIff(h, e, r, d)
  {
    DispatcherIs(h, e, r);
    var mid: Devices :| Dispatches(Popped(h, e), r, Actor(e), Actor(e).device, Dispatching(h, e), mid, EventScope(h, e));
    DispatchUsed(h, Popped(h, e), r, e, d, Dispatching(h, e), mid, EventScope(h, e));
  }

  lemma KindKeepsUsed(h: Hub, e: Event, r: Hub, d: Name)
    requires OfFourKinds(h, e, r) && d in h.store.devices
    requires Used(h.store, d) <= h.store.devices[d].def.maxConcurrency
    ensures BreaksIff(h, e, r, d)
  {
    if TaskDispatches(h, e, r) {
      TaskDispatchUsed(h, e, r, d);
    } else {
      if StoreOnly(h, r) {
        RequestUsed(h, e, r, d);
      } else if TaskRuns(h, e, r) {
        RunUsed(h, e, r, d);
      } else {
        EndUsed(h, e, r, d);
      }
      StaysBreaksNothing(h, e, r, d);
    }
  }

  // -- the guard of that step, before it is taken -----------------------------------------

  predicate IsUp(s: Store, svc: Name) {
    svc in s.services && s.services[svc].status !in {Stopped, HubTypes.Error}
  }

  // The session, not QUEUED, and a service to be had at once.
  predicate PassesUnchecked(h: Hub, svc: Name, sid: SessionId) {
    sid in h.store.sessions && h.store.sessions[sid].status != Queued && svc !in h.locks && IsUp(h.store, svc)
  }

  // A worker of device d takes such a session off the queue, or gets the lock for it, or has just
  // started the service of a session that is not QUEUED.
  predicate UncheckedStart(h: Hub, e: Event, d: Name) {
    match e
    case Dequeue(t) => HasWork(h, t) && t.device == d && PassesUnchecked(h, h.queues[d][0].0, h.queues[d][0].1)
    case Grant(t) =>
      && t.Worker? && t.device == d && t in h.tasks && h.tasks[t].Locking? && h.tasks[t].ctx.Auto?
      && PassesUnchecked(h, h.tasks[t].ctx.svc, h.tasks[t].ctx.sid)
    case Launched(t, ok) =>
      && ok && t.Worker? && t.device == d && t in h.tasks && h.tasks[t].Launching? && h.tasks[t].ctx.Auto?
      && h.tasks[t].ctx.sid in h.store.sessions && h.store.sessions[h.tasks[t].ctx.sid].status != Queued
    case _ => false
  }

  // The task forwards the session, if it forwards at all.
  predicate ForwardsOnly(r: Hub, t: TaskId, svc: Name, sid: SessionId) {
    IsForwarding(r.tasks, t) == 1 ==> r.tasks[t] == Forwarding(svc, sid)
  }

  lemma HeldNothing(r: Hub, t: TaskId)
    requires Holding(TaskAt(r, t)) == None
    ensures IsForwarding(r.tasks, t) == 0
  {
  }

  lemma DispatchForwards(h: Hub, t: TaskId, svc: Name, sid: SessionId, m: Moment)
    requires svc in h.store.services && sid in h.store.sessions
    ensures var r := TryDispatch(h, t, svc, sid, m);
            ForwardsOnly(r, t, svc, sid) && (h.store.sessions[sid].status != Queued ==> IsForwarding(r.tasks, t) == 1)
  {
    var d := h.store.services[svc].def.device;
    var (s1, busy) := AbortIfBusy(h.store, d, sid, m.now);
    if busy {
      TurnAwayFrees(h.(store := s1), t, svc, sid, m);
      HeldNothing(TurnAway(h.(store := s1), t, svc, sid, m), t);
    }
  }

  lemma LaunchForwardsNot(h: Hub, t: TaskId, ctx: Context)
    requires ctx.svc in h.store.services && (ctx.Auto? ==> ctx.sid in h.store.sessions)
    ensures IsForwarding(Launch(h, t, ctx).tasks, t) == 0
  {
  }

  lemma LookForwardsNot(h: Hub, t: TaskId, d: Name, ctx: Context, deadline: Time, m: Moment)
    requires d in h.store.devices && d in h.cfg.capacity
    ensures IsForwarding(LookForRoom(h, t, d, ctx, deadline, m).tasks, t) == 0
  {
  }

  lemma GiveUpForwardsNot(h: Hub, t: TaskId, ctx: Context, m: Moment)
    requires ctx.svc in h.store.services && (ctx.Auto? ==> ctx.sid in h.store.sessions)
    ensures IsForwarding(GiveUp(h, t, ctx, m).tasks, t) == 0
  {
    GiveUpCarries(h, t, ctx, m);
    HeldNothing(GiveUp(h, t, ctx, m), t);
  }

  lemma PollForwardsNot(h: Hub, t: TaskId, d: Name, ctx: Context, deadline: Time, m: Moment)
    requires d in h.store.devices && ctx.svc in h.store.services && (ctx.Auto? ==> ctx.sid in h.store.sessions)
    ensures IsForwarding(Poll(h, t, d, ctx, deadline, m).tasks, t) == 0
  {
    if m.now >= deadline {
      GiveUpForwardsNot(SetWaiting(h, d, ctx.svc, false), t, ctx, m);
    } else if d !in h.cfg.capacity || Available(h, d) >= h.store.services[ctx.svc].def.memory {
      LaunchForwardsNot(SetWaiting(h, d, ctx.svc, false), t, ctx);
    } else {
      LookForwardsNot(h, t, d, ctx, deadline, m);
    }
  }

  lemma ColdStartForwardsNot(h: Hub, t: TaskId, ctx: Context, m: Moment)
    requires ctx.svc in h.store.services && (ctx.Auto? ==> ctx.sid in h.store.sessions)
    ensures IsForwarding(ColdStart(h, t, ctx, m).tasks, t) == 0
  {
    var d := h.store.services[ctx.svc].def.device;
    var h1 := h.(locks := h.locks[ctx.svc := t]);
    if d in h.store.devices && d in h.cfg.capacity {
      PollForwardsNot(SetWaiting(h1, d, ctx.svc, true), t, d, ctx, m.now + h.store.devices[d].def.schedulingTimeout * SECOND, m);
    }
  }

  // Behind the lock: only a service that is up leads to a dispatch at once.
  lemma LockForwards(h: Hub, t: TaskId, svc: Name, sid: SessionId, m: Moment)
    requires svc in h.store.services && sid in h.store.sessions
    ensures var r := AcquireLock(h, t, Auto(svc, sid), m);
            && ForwardsOnly(r, t, svc, sid)
            && (h.store.sessions[sid].status != Queued ==> (IsForwarding(r.tasks, t) == 1 <==> svc !in h.locks && IsUp(h.store, svc)))
  {
    if IsUp(h.store, svc) {
      DispatchForwards(h, t, svc, sid, m);
    } else {
      ColdStartForwardsNot(h, t, Auto(svc, sid), m);
    }
  }

  // What the step makes of the worker, for the three events that may dispatch.
  ghost predicate GuardDecides(h: Hub, e: Event, r: Hub, d: Name) {
    UncheckedDispatch(h, e, r, d) <==> UncheckedStart(h, e, d)
  }

  lemma DequeueGuard(h: Hub, t: TaskId, m: Moment, d: Name)
    ensures GuardDecides(h, Dequeue(t), Dequeued(h, t, m), d)
  {
    if HasWork(h, t) {
      var (svc, sid) := h.queues[t.device][0];
      var h1 := h.(queues := h.queues[t.device := h.queues[t.device][1..]], store := TakenOff(h.store, svc));
      ReceiveGuard(h1, t, svc, sid, m);
    }
  }

  lemma ReceiveGuard(h: Hub, t: TaskId, svc: Name, sid: SessionId, m: Moment)
    requires svc in h.store.services && sid in h.store.sessions
    ensures var r := Receive(h, t, svc, sid, m);
            && ForwardsOnly(r, t, svc, sid)
            && (h.store.sessions[sid].status != Queued ==> (IsForwarding(r.tasks, t) == 1 <==> svc !in h.locks && IsUp(h.store, svc)))
  {
    var (s1, busy) := AbortIfBusy(h.store, h.store.services[svc].def.device, sid, m.now);
    if busy {
      TurnAwayFrees(h.(store := s1), t, svc, sid, m);
      HeldNothing(TurnAway(h.(store := s1), t, svc, sid, m), t);
    } else {
      AbortSessions(h.store, h.store.services[svc].def.device, sid, m.now);
      LockForwards(h.(store := s1), t, svc, sid, m);
    }
  }

  lemma GrantGuard(h: Hub, t: TaskId, m: Moment, d: Name)
    requires Shape(h) && t in h.tasks && h.tasks[t].Locking? && t.Worker?
    ensures GuardDecides(h, Grant(t), Granted(h, t, m), d)
  {
    assert KnownTask(h.store, TaskDevice(h, t), h.tasks[t]);
    LockForwards(h, t, h.tasks[t].ctx.svc, h.tasks[t].ctx.sid, m);
  }

  lemma LaunchedGuard(h: Hub, t: TaskId, ok: bool, m: Moment, d: Name)
    requires Shape(h) && t in h.tasks && h.tasks[t].Launching? && t.Worker?
    ensures KnownTask(h.store, TaskDevice(h, t), h.tasks[t])
    ensures GuardDecides(h, Launched(t, ok), AfterLaunch(h, t, ok, m), d)
  {
    assert KnownTask(h.store, TaskDevice(h, t), h.tasks[t]);
    var ctx := h.tasks[t].ctx;
    if !ok {
      GiveUpCarries(h, t, ctx, m);
      HeldNothing(GiveUp(h, t, ctx, m), t);
    } else {
      DispatchForwards(Unlock(h.(store := MarkStarted(h.store, ctx.svc, m.now)), ctx.svc), t, ctx.svc, ctx.sid, m);
    }
  }

  lemma ReclaimForwardsNot(h: Hub, t: TaskId, outcome: Outcome, m: Moment)
    requires t in h.tasks && h.tasks[t].Reclaiming? && KnownTask(h.store, TaskDevice(h, t), h.tasks[t])
    ensures IsForwarding(Reclaimed(h, t, outcome, m).tasks, t) == 0
  {
    var d := TaskDevice(h, t);
    var Reclaiming(ctx, deadline, todo, projected, reclaimed) := h.tasks[t];
    match outcome
    case RaisesRuntimeError =>
    case RaisesOther => GiveUpForwardsNot(SetWaiting(h, d, ctx.svc, false), t, ctx, m);
    case Succeeds =>
      assert todo[0] in todo;
      var s1 := StopForReclaim(h.store, ctx, todo[0], m.now);
      ReclaimOnForwardsNot(h.(store := s1), t, d, ctx, deadline, todo, projected + s1.services[todo[0]].def.memory, reclaimed + [todo[0]]);
  }

  lemma ReclaimOnForwardsNot(h: Hub, t: TaskId, d: Name, ctx: Context, deadline: Time, todo: seq<Name>, freed: int, names: seq<Name>)
    requires d in h.store.devices && todo != []
    requires ctx.svc in h.store.services && (ctx.Auto? ==> ctx.sid in h.store.sessions)
    ensures IsForwarding(ReclaimOn(h, t, d, ctx, deadline, todo, freed, names).tasks, t) == 0
  {
    var s1 := if ctx.Auto? then NotePending(h.store, d, ctx.sid, names) else h.store;
    LaunchForwardsNot(SetWaiting(h.(store := s1), d, ctx.svc, false), t, ctx);
  }

  // The other events of a worker end without a dispatch, or began with one.
  lemma CapacityGuard(h: Hub, e: Event, m: Moment, d: Name)
    requires Shape(h) && (e.Wake? || e.ReclaimStopped?)
    ensures GuardDecides(h, e, Step(h, e, m), d)
  {
    if e.t in h.tasks && e.Wake? && h.tasks[e.t].Polling? {
      assert KnownTask(h.store, TaskDevice(h, e.t), h.tasks[e.t]);
      PollForwardsNot(h, e.t, TaskDevice(h, e.t), h.tasks[e.t].ctx, h.tasks[e.t].deadline, m);
    } else if e.t in h.tasks && e.ReclaimStopped? && h.tasks[e.t].Reclaiming? {
      assert KnownTask(h.store, TaskDevice(h, e.t), h.tasks[e.t]);
      ReclaimForwardsNot(h, e.t, e.outcome, m);
    }
  }

  lemma EndGuard(h: Hub, e: Event, m: Moment, d: Name)
    requires Shape(h) && (e.Answered? || e.OnceStopped? || e.Restored?)
    ensures GuardDecides(h, e, Step(h, e, m), d)
  {
    if e.t in h.tasks && e.OnceStopped? && h.tasks[e.t].StoppingOnce? {
      AfterOnceStopFrees(h, e.t, e.ok, m);
      HeldNothing(AfterOnceStop(h, e.t, e.ok, m), e.t);
    } else if e.t in h.tasks && e.Restored? && h.tasks[e.t].Restoring? {
      AfterRestoreFrees(h, e.t, e.ok, m);
      HeldNothing(AfterRestore(h, e.t, e.ok, m), e.t);
    }
  }

  lemma OtherGuard(h: Hub, e: Event, m: Moment, d: Name)
    requires Shape(h) && !Actor(e).Worker?
    ensures GuardDecides(h, e, Step(h, e, m), d)
  {
  }

  lemma HttpGuard(h: Hub, e: Event, m: Moment, d: Name)
    requires Shape(h) && Actor(e).Worker?
    requires e.HttpStart? || e.HttpStop? || e.HttpStopped? || e.HttpProbe? || e.HttpProbed?
    ensures GuardDecides(h, e, Step(h, e, m), d)
  {
    assert Step(h, e, m) == h;
  }

  lemma StartGuard(h: Hub, e: Event, m: Moment, d: Name)
    requires Shape(h) && (e.Dequeue? || e.Grant? || e.Launched?) && Actor(e).Worker?
    ensures GuardDecides(h, e, Step(h, e, m), d)
  {
    if e.Dequeue? {
      DequeueGuard(h, e.t, m, d);
    } else if e.t in h.tasks && e.Grant? && h.tasks[e.t].Locking? {
      GrantGuard(h, e.t, m, d);
    } else if e.t in h.tasks && e.Launched? && h.tasks[e.t].Launching? {
      LaunchedGuard(h, e.t, e.ok, m, d);
    }
  }

  // A step dispatches unchecked exactly if its guard says so beforehand.
  lemma GuardIsExact(h: Hub, e: Event, m: Moment, d: Name)
    requires Shape(h)
    ensures GuardDecides(h, e, Step(h, e, m), d)
  {
    if !Actor(e).Worker? {
      OtherGuard(h, e, m, d);
    } else if e.Dequeue? || e.Grant? || e.Launched? {
      StartGuard(h, e, m, d);
    } else if e.Wake? || e.ReclaimStopped? {
      CapacityGuard(h, e, m, d);
    } else if e.Answered? || e.OnceStopped? || e.Restored? {
      EndGuard(h, e, m, d);
    } else {
      HttpGuard(h, e, m, d);
    }
  }

  lemma BreaksWhere(h: Hub, e: Event, r: Hub, d: Name)
    requires BreaksIff(h, e, r, d) && GuardDecides(h, e, r, d)
    ensures Used(r.store, d) > h.store.devices[d].def.maxConcurrency <==>
            UncheckedStart(h, e, d) && Used(h.store, d) == h.store.devices[d].def.maxConcurrency
  {
  }

  /** A device within its concurrency stays within it, but for one kind of step: with no free slot, a
      worker takes a session that is not QUEUED off the queue, or gets the lock for it, while the
      service is up and unlocked, or has just started the service of such a session. That step
      always breaks the bound. */
  lemma StepKeepsUsed(h: Hub, e: Event, m: Moment, d: Name)
    requires Invariant(h) && d in h.store.devices
    requires Used(h.store, d) <= h.store.devices[d].def.maxConcurrency
    ensures d in Step(h, e, m).store.devices
    ensures Used(Step(h, e, m).store, d) > h.store.devices[d].def.maxConcurrency <==>
            UncheckedStart(h, e, d) && Used(h.store, d) == h.store.devices[d].def.maxConcurrency
  {
    StepKind(h, e, m);
    KindKeepsUsed(h, e, Step(h, e, m), d);
    GuardIsExact(h, e, m, d);
    BreaksWhere(h, e, Step(h, e, m), d);
  }
}
