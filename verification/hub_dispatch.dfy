/** The stretches that may end in a dispatch: what a dispatch does, and what its second busy
    check guarantees. */
module HubDispatch {
  import opened Wrappers
  import opened HubTypes
  import opened HubStore
  import opened HubStoreLaws
  import opened HubScheduler
  import opened HubMoves
  import opened HubMachine
  import opened HubRuns

  function UsedOf(rt: DeviceRuntime): int {
    rt.active + |rt.slots|
  }

  predicate SlotFree(rt: DeviceRuntime) {
    UsedOf(rt) < rt.def.maxConcurrency
  }

  // The busy check before a dispatch: a QUEUED session found a free slot after pruning; any
  // other session was let through and the devices were left as they were.
  ghost predicate Checked(devices: Devices, mid: Devices, d: Name, queued: bool) {
    d in devices && d in mid ==>
      if queued then SlotFree(mid[d])
      else mid[d].slots == devices[d].slots && mid[d].active == devices[d].active
  }

  // Task t of device d dispatched session sid; mid are the devices just before the count went up.
  ghost predicate Dispatches(h: Hub, r: Hub, t: TaskId, d: Name, sid: SessionId, mid: Devices, sc: Scope) {
    && r.cfg == h.cfg && r.queues == h.queues
    && SameServices(h.store.services, r.store.services) && SessionsStay(h.store.sessions, r.store.sessions)
    && (Good(h.store) ==> Good(r.store))
    && OthersSame(h.tasks, r.tasks, t)
    && t.Worker? && t in r.tasks && r.tasks[t].Forwarding? && KnownTask(r.store, d, r.tasks[t])
    && r.tasks[t].sid == sid && sid in h.store.sessions
    && DevicesMove(h.store.services, h.store.devices, mid, sc) && OneMore(mid, r.store.devices, d)
    && Checked(h.store.devices, mid, d, h.store.sessions[sid].status == Queued)
  }

  ghost predicate RunsOrDispatches(h: Hub, r: Hub, t: TaskId, d: Name, sid: SessionId, sc: Scope) {
    Runs(h, r, t, d, sc) || exists mid :: Dispatches(h, r, t, d, sid, mid, sc)
  }

  // -- the dispatch itself ----------------------------------------------------------------

  lemma DispatchDispatches(h: Hub, s: Store, t: TaskId, d: Name, svc: Name, sid: SessionId, now: Time, sc: Scope)
    requires Moves(h.store, s, sc) && KnownContext(h.store, d, Auto(svc, sid)) && OnBehalf(t, d, Auto(svc, sid), sc)
    requires Checked(h.store.devices, s.devices, d, h.store.sessions[sid].status == Queued)
    ensures svc in s.services && sid in s.sessions
    ensures Dispatches(h, SetTask(h.(store := Dispatched(s, d, svc, sid, now)), t, Forwarding(svc, sid)), t, d, sid, s.devices, sc)
  {
    var r := Dispatched(s, d, svc, sid, now);
    DispatchedCounts(s, d, svc, sid, now);
    if Good(h.store) {
      DispatchedGood(s, d, svc, sid, now);
    }
    DispatchStays(h.store, s, r);
    DispatchIs(h, s, r, t, d, svc, sid, sc);
  }

  // The parts of a dispatch, put together.
  lemma DispatchIs(h: Hub, mid: Store, r: Store, t: TaskId, d: Name, svc: Name, sid: SessionId, sc: Scope)
    requires SameServices(h.store.services, r.services) && SessionsStay(h.store.sessions, r.sessions) && (Good(h.store) ==> Good(r))
    requires DevicesMove(h.store.services, h.store.devices, mid.devices, sc) && OneMore(mid.devices, r.devices, d)
    requires t.Worker? && sid in h.store.sessions && KnownContext(h.store, d, Auto(svc, sid))
    requires Checked(h.store.devices, mid.devices, d, h.store.sessions[sid].status == Queued)
    ensures Dispatches(h, SetTask(h.(store := r), t, Forwarding(svc, sid)), t, d, sid, mid.devices, sc)
  {
  }

  lemma DispatchStays(s: Store, m: Store, r: Store)
    requires SameServices(s.services, m.services) && SessionsStay(s.sessions, m.sessions)
    requires SameServices(m.services, r.services) && SessionsStay(m.sessions, r.sessions)
    ensures SameServices(s.services, r.services) && SessionsStay(s.sessions, r.sessions)
  {
  }

  lemma AbortChecks(s: Store, d: Name, sid: SessionId, now: Time)
    requires sid in s.sessions
    ensures var (r, busy) := AbortIfBusy(s, d, sid, now);
            !busy ==> Checked(s.devices, r.devices, d, s.sessions[sid].status == Queued) && r.sessions == s.sessions
  {
  }

  lemma TryDispatchRuns(h: Hub, t: TaskId, d: Name, svc: Name, sid: SessionId, m: Moment, sc: Scope)
    requires KnownContext(h.store, d, Auto(svc, sid)) && OnBehalf(t, d, Auto(svc, sid), sc)
    ensures RunsOrDispatches(h, TryDispatch(h, t, svc, sid, m), t, d, sid, sc)
  {
    var (s1, busy) := AbortIfBusy(h.store, d, sid, m.now);
    AbortMoves(h.store, d, sid, m.now, sc);
    AbortChecks(h.store, d, sid, m.now);
    if busy {
      KnownStays(h.store, s1, d, Auto(svc, sid), [], sc);
      TurnAwayRuns(h.(store := s1), t, d, svc, sid, m, sc);
      RunsAfterStore(h, s1, TryDispatch(h, t, svc, sid, m), t, d, sc);
    } else {
      DispatchDispatches(h, s1, t, d, svc, sid, m.now, sc);
    }
  }

  // -- what leads up to it ----------------------------------------------------------------

  // Sessions are as they were and, unless the session is QUEUED and so checked again, device d
  // has the slots and the count it had.
  ghost predicate CountKept(s: Store, r: Store, d: Name, sid: SessionId) {
    && r.sessions == s.sessions
    && ((sid in s.sessions && s.sessions[sid].status == Queued) || SameCount(s.devices, r.devices, d))
  }

  ghost predicate SameCount(devices: Devices, r: Devices, d: Name) {
    d in devices ==> d in r && r[d].active == devices[d].active && r[d].slots == devices[d].slots
  }

  lemma DispatchesAfterStore(h: Hub, s: Store, r: Hub, t: TaskId, d: Name, sid: SessionId, mid: Devices, sc: Scope)
    requires Moves(h.store, s, sc) && CountKept(h.store, s, d, sid)
    requires Dispatches(h.(store := s), r, t, d, sid, mid, sc)
    ensures Dispatches(h, r, t, d, sid, mid, sc)
  {
    DispatchStays(h.store, s, r.store);
    DevicesChain(h.store.services, s.services, h.store.devices, s.devices, mid, sc);
  }

  function SessionOf(ctx: Context): SessionId {
    match ctx
    case Auto(_, sid) => sid
    case Explicit(_) => ""
  }

  lemma ProceedRuns(h: Hub, t: TaskId, d: Name, ctx: Context, m: Moment, sc: Scope)
    requires KnownContext(h.store, d, ctx) && OnBehalf(t, d, ctx, sc)
    ensures RunsOrDispatches(h, Proceed(h, t, ctx, m), t, d, SessionOf(ctx), sc)
  {
    match ctx
    case Auto(svc, sid) => TryDispatchRuns(h, t, d, svc, sid, m, sc);
    case Explicit(_) => DoneRuns(h, t, d, sc);
  }

  lemma WaitForMemoryRuns(h: Hub, t: TaskId, d: Name, ctx: Context, m: Moment, sc: Scope)
    requires RunningKnown(h.store.devices, h.store.services) && PendingKnown(h.store, d) && KnownContext(h.store, d, ctx) && OnBehalf(t, d, ctx, sc)
    requires d in h.store.devices
    ensures Runs(h, WaitForMemory(h, t, d, ctx, m), t, d, sc)
  {
    var deadline := m.now + h.store.devices[d].def.schedulingTimeout * SECOND;
    var h1 := SetWaiting(h, d, ctx.svc, true);
    WithWaitingMoves(h.store, d, ctx.svc, true, sc);
    WithWaitingSame(h.store, d, ctx.svc, true);
    var r := Poll(h1, t, d, ctx, deadline, m);
    assert r == WaitForMemory(h, t, d, ctx, m);
    PollRuns(h1, t, d, ctx, deadline, m, sc);
    RunsAfterStore(h, h1.store, r, t, d, sc);
  }

  lemma ColdStartRuns(h: Hub, t: TaskId, d: Name, ctx: Context, m: Moment, sc: Scope)
    requires RunningKnown(h.store.devices, h.store.services) && PendingKnown(h.store, d) && KnownContext(h.store, d, ctx) && OnBehalf(t, d, ctx, sc)
    ensures Runs(h, ColdStart(h, t, ctx, m), t, d, sc)
  {
    var h1 := h.(locks := h.locks[ctx.svc := t]);
    if d !in h.store.devices || d !in h.cfg.capacity {
      LaunchRuns(h1, t, d, ctx, sc);
    } else {
      WaitForMemoryRuns(h1, t, d, ctx, m, sc);
    }
  }

  lemma EnsureStartedRuns(h: Hub, t: TaskId, d: Name, ctx: Context, m: Moment, sc: Scope)
    requires RunningKnown(h.store.devices, h.store.services) && PendingKnown(h.store, d) && KnownContext(h.store, d, ctx) && OnBehalf(t, d, ctx, sc)
    ensures RunsOrDispatches(h, EnsureStarted(h, t, ctx, m), t, d, SessionOf(ctx), sc)
  {
    if h.store.services[ctx.svc].status !in {Stopped, Error} {
      ProceedRuns(h, t, d, ctx, m, sc);
    } else {
      ColdStartRuns(h, t, d, ctx, m, sc);
    }
  }

  lemma AcquireLockRuns(h: Hub, t: TaskId, d: Name, ctx: Context, m: Moment, sc: Scope)
    requires RunningKnown(h.store.devices, h.store.services) && PendingKnown(h.store, d) && KnownContext(h.store, d, ctx) && OnBehalf(t, d, ctx, sc)
    ensures RunsOrDispatches(h, AcquireLock(h, t, ctx, m), t, d, SessionOf(ctx), sc)
  {
    if ctx.svc in h.locks {
      SetTaskRuns(h, t, d, Locking(ctx), sc);
    } else {
      EnsureStartedRuns(h, t, d, ctx, m, sc);
    }
  }

  // A store change that keeps the count, and then a run.
  lemma AfterStore(h: Hub, s: Store, r: Hub, t: TaskId, d: Name, sid: SessionId, sc: Scope)
    requires Moves(h.store, s, sc) && CountKept(h.store, s, d, sid)
    requires RunsOrDispatches(h.(store := s), r, t, d, sid, sc)
    ensures RunsOrDispatches(h, r, t, d, sid, sc)
  {
    if Runs(h.(store := s), r, t, d, sc) {
      RunsAfterStore(h, s, r, t, d, sc);
    } else {
      var mid :| Dispatches(h.(store := s), r, t, d, sid, mid, sc);
      DispatchesAfterStore(h, s, r, t, d, sid, mid, sc);
    }
  }

  // Locks are no part of what a run keeps.
  lemma AfterUnlock(h: Hub, svc: Name, r: Hub, t: TaskId, d: Name, sid: SessionId, sc: Scope)
    requires RunsOrDispatches(Unlock(h, svc), r, t, d, sid, sc)
    ensures RunsOrDispatches(h, r, t, d, sid, sc)
  {
    var h1 := Unlock(h, svc);
    if !Runs(h1, r, t, d, sc) {
      var mid :| Dispatches(h1, r, t, d, sid, mid, sc);
      assert Dispatches(h, r, t, d, sid, mid, sc);
    }
  }

  lemma StartedCount(s: Store, svc: Name, now: Time, d: Name, sid: SessionId)
    requires svc in s.services
    ensures CountKept(s, MarkStarted(s, svc, now), d, sid)
  {
  }

  lemma LaunchedRuns(h: Hub, t: TaskId, d: Name, ctx: Context, m: Moment, sc: Scope)
    requires KnownContext(h.store, d, ctx) && OnBehalf(t, d, ctx, sc) && sc.gain == Some(ctx.svc)
    ensures var h1 := h.(store := MarkStarted(h.store, ctx.svc, m.now));
            KnownContext(h1.store, d, ctx) && RunsOrDispatches(h, Proceed(Unlock(h1, ctx.svc), t, ctx, m), t, d, SessionOf(ctx), sc)
  {
    var h1 := h.(store := MarkStarted(h.store, ctx.svc, m.now));
    MarkStartedMoves(h.store, ctx.svc, m.now, sc);
    KnownStays(h.store, h1.store, d, ctx, [], sc);
    StartedCount(h.store, ctx.svc, m.now, d, SessionOf(ctx));
    ProceedRuns(Unlock(h1, ctx.svc), t, d, ctx, m, sc);
    AfterUnlock(h1, ctx.svc, Proceed(Unlock(h1, ctx.svc), t, ctx, m), t, d, SessionOf(ctx), sc);
    AfterStore(h, h1.store, Proceed(Unlock(h1, ctx.svc), t, ctx, m), t, d, SessionOf(ctx), sc);
  }

  lemma AfterLaunchRuns(h: Hub, t: TaskId, ok: bool, m: Moment, sc: Scope)
    requires t in h.tasks && h.tasks[t].Launching? && KnownTask(h.store, TaskDevice(h, t), h.tasks[t]) && RightTask(t, h.tasks[t])
    requires PendingKnown(h.store, TaskDevice(h, t)) && (t.Worker? ==> sc.own == Some(TaskDevice(h, t)))
    requires sc.gain == Some(h.tasks[t].ctx.svc)
    ensures RunsOrDispatches(h, AfterLaunch(h, t, ok, m), t, TaskDevice(h, t), SessionOf(h.tasks[t].ctx), sc)
  {
    if !ok {
      GiveUpRuns(h, t, TaskDevice(h, t), h.tasks[t].ctx, m, sc);
    } else {
      LaunchedRuns(h, t, TaskDevice(h, t), h.tasks[t].ctx, m, sc);
    }
  }

  lemma AbortCount(s: Store, d: Name, sid: SessionId, now: Time)
    requires sid in s.sessions && !AbortIfBusy(s, d, sid, now).1
    ensures CountKept(s, AbortIfBusy(s, d, sid, now).0, d, sid)
  {
  }

  lemma AbortRunning(s: Store, d: Name, sid: SessionId, now: Time)
    requires RunningKnown(s.devices, s.services) && sid in s.sessions
    ensures RunningKnown(AbortIfBusy(s, d, sid, now).0.devices, AbortIfBusy(s, d, sid, now).0.services)
  {
  }

  lemma ReceiveRuns(h: Hub, t: TaskId, d: Name, svc: Name, sid: SessionId, m: Moment, sc: Scope)
    requires RunningKnown(h.store.devices, h.store.services) && PendingKnown(h.store, d)
    requires KnownContext(h.store, d, Auto(svc, sid)) && OnBehalf(t, d, Auto(svc, sid), sc)
    ensures RunsOrDispatches(h, Receive(h, t, svc, sid, m), t, d, sid, sc)
  {
    var (s1, busy) := AbortIfBusy(h.store, d, sid, m.now);
    AbortMoves(h.store, d, sid, m.now, sc);
    KnownStays(h.store, s1, d, Auto(svc, sid), [], sc);
    if busy {
      TurnAwayRuns(h.(store := s1), t, d, svc, sid, m, sc);
      RunsAfterStore(h, s1, TurnAway(h.(store := s1), t, svc, sid, m), t, d, sc);
    } else {
      PendingStays(h.store, s1, d, sc);
      AbortRunning(h.store, d, sid, m.now);
      AbortCount(h.store, d, sid, m.now);
      AcquireLockRuns(h.(store := s1), t, d, Auto(svc, sid), m, sc);
      AfterStore(h, s1, AcquireLock(h.(store := s1), t, Auto(svc, sid), m), t, d, sid, sc);
    }
  }

  lemma TakenOffKeeps(s: Store, svc: Name, d: Name, sc: Scope)
    requires svc in s.services
    ensures Moves(s, TakenOff(s, svc), sc)
  {
    var rt := s.services[svc].(queueSize := s.services[svc].queueSize - 1);
    assert TakenOff(s, svc) == PutService(s, svc, rt);
    PutServiceMoves(s, svc, rt, sc);
  }

  lemma TakenOffSame(s: Store, svc: Name, d: Name, sid: SessionId)
    requires svc in s.services
    ensures CountKept(s, TakenOff(s, svc), d, sid)
    ensures RunningKnown(s.devices, s.services) ==> RunningKnown(TakenOff(s, svc).devices, TakenOff(s, svc).services)
  {
  }

  lemma TakeOffRuns(h: Hub, t: TaskId, d: Name, svc: Name, sid: SessionId, m: Moment, sc: Scope)
    requires RunningKnown(h.store.devices, h.store.services) && PendingKnown(h.store, d)
    requires KnownContext(h.store, d, Auto(svc, sid)) && OnBehalf(t, d, Auto(svc, sid), sc)
    ensures var s1 := TakenOff(h.store, svc);
            KnownContext(s1, d, Auto(svc, sid)) && RunsOrDispatches(h, Receive(h.(store := s1), t, svc, sid, m), t, d, sid, sc)
  {
    var s1 := TakenOff(h.store, svc);
    TakenOffKeeps(h.store, svc, d, sc);
    TakenOffSame(h.store, svc, d, sid);
    KnownStays(h.store, s1, d, Auto(svc, sid), [], sc);
    PendingStays(h.store, s1, d, sc);
    ReceiveRuns(h.(store := s1), t, d, svc, sid, m, sc);
    AfterStore(h, s1, Receive(h.(store := s1), t, svc, sid, m), t, d, sid, sc);
  }

  // A worker that takes a session from its queue: everything up to its first await.
  lemma DequeuedRuns(h: Hub, t: TaskId, m: Moment, sc: Scope)
    requires HasWork(h, t) && sc.own == Some(t.device)
    requires KnownContext(h.store, t.device, Auto(h.queues[t.device][0].0, h.queues[t.device][0].1))
    requires RunningKnown(h.store.devices, h.store.services) && PendingKnown(h.store, t.device)
    ensures RunsOrDispatches(h.(queues := h.queues[t.device := h.queues[t.device][1..]]), Dequeued(h, t, m), t, t.device, h.queues[t.device][0].1, sc)
  {
    var (svc, sid) := h.queues[t.device][0];
    TakeOffRuns(h.(queues := h.queues[t.device := h.queues[t.device][1..]]), t, t.device, svc, sid, m, sc);
  }
}
