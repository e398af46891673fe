/** What a task that is about to start a service knows about the memory of its device: there is
    room for the service, or there will be once the listed candidates are stopped. */
module HubClaims {
  import opened Wrappers
  import opened HubTypes
  import opened HubStore
  import opened HubScheduler
  import opened HubMachine
  import opened HubLoad
  import opened Seqs

  predicate Tracked(cfg: Config, s: Store, d: Name) {
    d in s.devices && d in cfg.capacity
  }

  // The memory of a tracked device that running services leave.
  function Room(cfg: Config, s: Store, d: Name): int
    requires Tracked(cfg, s, d)
  {
    cfg.capacity[d] - Load(cfg.names, s.devices[d].running, s.services)
  }

  ghost predicate RoomFor(cfg: Config, s: Store, d: Name, svc: Name) {
    Tracked(cfg, s, d) ==> Memory(s.services, svc) <= Room(cfg, s, d)
  }

  // The projected memory, with what is freed beyond it, is really there.
  ghost predicate Projects(cfg: Config, s: Store, d: Name, todo: seq<Name>, projected: int) {
    Tracked(cfg, s, d) ==>
      NoDup(todo) && projected + Freed(cfg.names, todo, s.devices[d].running, s.services) <= Room(cfg, s, d)
  }

  ghost predicate ClaimAt(cfg: Config, s: Store, d: Name, task: Task) {
    match task
    case Launching(ctx) => RoomFor(cfg, s, d, ctx.svc)
    case Restoring(svc, _) => RoomFor(cfg, s, d, svc)
    case Reclaiming(_, _, todo, projected, _) => Projects(cfg, s, d, todo, projected)
    case _ => true
  }

  ghost predicate Claims(h: Hub, t: TaskId, d: Name) {
    t in h.tasks ==> ClaimAt(h.cfg, h.store, d, h.tasks[t])
  }

  // The same services run on the device, and none changed its size.
  ghost predicate SameUse(s: Store, r: Store, d: Name) {
    && SameSizes(s.services, r.services)
    && (d in s.devices <==> d in r.devices) && (d in s.devices ==> r.devices[d].running == s.devices[d].running)
  }

  lemma RoomSame(cfg: Config, s: Store, r: Store, d: Name, svc: Name)
    requires SameUse(s, r, d)
    ensures Tracked(cfg, r, d) == Tracked(cfg, s, d) && (Tracked(cfg, s, d) ==> Room(cfg, r, d) == Room(cfg, s, d))
    ensures Memory(r.services, svc) == Memory(s.services, svc)
    ensures RoomFor(cfg, s, d, svc) ==> RoomFor(cfg, r, d, svc)
  {
    if d in s.devices {
      SameLoadSizes(cfg.names, s.devices[d].running, s.services, r.services);
    }
  }

  // -- after a session --------------------------------------------------------------------

  lemma RestoreNextClaims(h: Hub, t: TaskId, d: Name, todo: seq<Name>)
    requires d in h.store.devices
    ensures Claims(RestoreNext(h, t, d, todo), t, d)
  {
  }

  lemma BeginRestoreClaims(h: Hub, t: TaskId, d: Name, sid: SessionId, m: Moment)
    ensures Claims(BeginRestore(h, t, d, sid, m), t, d)
  {
    if d in h.store.devices {
      var h1 := h.(store := Forgotten(h.store, d, sid));
      RestoreNextClaims(h1, t, d, RestoreOrder(h1.store, d, m.now, PendingOf(h.store, d, sid)));
    }
  }

  lemma AfterSessionClaims(h: Hub, t: TaskId, d: Name, svc: Name, sid: SessionId, m: Moment)
    requires svc in h.store.services
    ensures Claims(AfterSession(h, t, d, svc, sid, m), t, d)
  {
    BeginRestoreClaims(h.(store := Sweep(h.store, {svc}, m.now)), t, d, sid, m);
  }

  lemma FinishSessionClaims(h: Hub, t: TaskId, d: Name, svc: Name, sid: SessionId, m: Moment)
    requires svc in h.store.services && sid in h.store.sessions && h.store.services[svc].def.device == d
    ensures Claims(FinishSession(h, t, svc, sid, m), t, d)
  {
    AfterSessionClaims(h.(store := Finally(h.store, d, svc, sid, m.now)), t, d, svc, sid, m);
  }

  lemma FailSessionClaims(h: Hub, t: TaskId, d: Name, svc: Name, sid: SessionId, m: Moment)
    requires svc in h.store.services && sid in h.store.sessions && h.store.services[svc].def.device == d
    ensures Claims(FailSession(h, t, svc, sid, m), t, d)
  {
    FinishSessionClaims(h.(store := Broken(h.store, svc, sid, m.now)), t, d, svc, sid, m);
  }

  lemma TryDispatchClaims(h: Hub, t: TaskId, d: Name, svc: Name, sid: SessionId, m: Moment)
    requires svc in h.store.services && sid in h.store.sessions
    ensures Claims(TryDispatch(h, t, svc, sid, m), t, d)
  {
  }

  // -- before a session -------------------------------------------------------------------

  ghost predicate Runner(h: Hub, d: Name, ctx: Context) {
    && ctx.svc in h.store.services && h.store.services[ctx.svc].def.device == d
    && (ctx.Auto? ==> ctx.sid in h.store.sessions)
  }

  lemma LaunchClaims(h: Hub, t: TaskId, d: Name, ctx: Context)
    requires Runner(h, d, ctx) && RoomFor(h.cfg, h.store, d, ctx.svc)
    ensures Claims(Launch(h, t, ctx), t, d)
  {
    RoomSame(h.cfg, h.store, Launch(h, t, ctx).store, d, ctx.svc);
  }

  lemma AdmitClaims(h: Hub, t: TaskId, d: Name, ctx: Context)
    requires d in h.store.devices && Runner(h, d, ctx) && RoomFor(h.cfg, h.store, d, ctx.svc)
    ensures Claims(Admit(h, t, d, ctx), t, d)
  {
    var h1 := SetWaiting(h, d, ctx.svc, false);
    RoomSame(h.cfg, h.store, h1.store, d, ctx.svc);
    LaunchClaims(h1, t, d, ctx);
  }

  lemma GiveUpClaims(h: Hub, t: TaskId, d: Name, ctx: Context, m: Moment)
    requires Runner(h, d, ctx)
    ensures Claims(GiveUp(h, t, ctx, m), t, d)
  {
    if ctx.Auto? {
      FailSessionClaims(Unlock(h, ctx.svc), t, d, ctx.svc, ctx.sid, m);
    }
  }

  // The candidates run, each listed once.
  lemma CandidatesRun(s: Store, d: Name, target: Name, order: seq<Name>)
    requires d in s.devices && NoDup(order)
    ensures NoDup(Candidates(s, d, target, order))
    ensures forall n :: n in Candidates(s, d, target, order) ==> n in s.devices[d].running
  {
    FilterElements(n => Eligible(s, d, target, n), order);
    FilterNoDup(n => Eligible(s, d, target, n), order);
    SortElements((a, b) => ReclaimedBefore(s.services, a, b), Filter(n => Eligible(s, d, target, n), order));
    SortNoDup((a, b) => ReclaimedBefore(s.services, a, b), Filter(n => Eligible(s, d, target, n), order));
  }

  lemma LookForRoomClaims(h: Hub, t: TaskId, d: Name, ctx: Context, deadline: Time, m: Moment)
    requires Tracked(h.cfg, h.store, d) && NoDup(m.order)
    ensures Claims(LookForRoom(h, t, d, ctx, deadline, m), t, d)
  {
    var swept := Sweep(h.store, Probed(h.store, d, ctx.svc), m.now);
    var todo := Candidates(swept, d, ctx.svc, m.order);
    RoomSame(h.cfg, h.store, swept, d, ctx.svc);
    CandidatesRun(swept, d, ctx.svc, m.order);
    NothingFreed(h.cfg.names, todo, swept.devices[d].running, swept.services);
  }

  lemma PollClaims(h: Hub, t: TaskId, d: Name, ctx: Context, deadline: Time, m: Moment)
    requires d in h.store.devices && Runner(h, d, ctx) && NoDup(m.order)
    ensures Claims(Poll(h, t, d, ctx, deadline, m), t, d)
  {
    if m.now >= deadline {
      GiveUpClaims(SetWaiting(h, d, ctx.svc, false), t, d, ctx, m);
    } else if d !in h.cfg.capacity || Available(h, d) >= h.store.services[ctx.svc].def.memory {
      AdmitClaims(h, t, d, ctx);
    } else {
      LookForRoomClaims(h, t, d, ctx, deadline, m);
    }
  }

  lemma WaitForMemoryClaims(h: Hub, t: TaskId, d: Name, ctx: Context, m: Moment)
    requires d in h.store.devices && Runner(h, d, ctx) && NoDup(m.order)
    ensures Claims(WaitForMemory(h, t, d, ctx, m), t, d)
  {
    PollClaims(SetWaiting(h, d, ctx.svc, true), t, d, ctx, m.now + h.store.devices[d].def.schedulingTimeout * SECOND, m);
  }

  lemma ColdStartClaims(h: Hub, t: TaskId, d: Name, ctx: Context, m: Moment)
    requires Runner(h, d, ctx) && NoDup(m.order)
    ensures Claims(ColdStart(h, t, ctx, m), t, d)
  {
    var h1 := h.(locks := h.locks[ctx.svc := t]);
    if d !in h.store.devices || d !in h.cfg.capacity {
      LaunchClaims(h1, t, d, ctx);
    } else {
      WaitForMemoryClaims(h1, t, d, ctx, m);
    }
  }

  lemma EnsureStartedClaims(h: Hub, t: TaskId, d: Name, ctx: Context, m: Moment)
    requires Runner(h, d, ctx) && NoDup(m.order)
    ensures Claims(EnsureStarted(h, t, ctx, m), t, d)
  {
    if h.store.services[ctx.svc].status !in {Stopped, Error} {
      ProceedClaims(h, t, d, ctx, m);
    } else {
      ColdStartClaims(h, t, d, ctx, m);
    }
  }

  lemma ProceedClaims(h: Hub, t: TaskId, d: Name, ctx: Context, m: Moment)
    requires Runner(h, d, ctx)
    ensures Claims(Proceed(h, t, ctx, m), t, d)
  {
    if ctx.Auto? {
      TryDispatchClaims(h, t, d, ctx.svc, ctx.sid, m);
    }
  }

  lemma AcquireLockClaims(h: Hub, t: TaskId, d: Name, ctx: Context, m: Moment)
    requires Runner(h, d, ctx) && NoDup(m.order)
    ensures Claims(AcquireLock(h, t, ctx, m), t, d)
  {
    if ctx.svc !in h.locks {
      EnsureStartedClaims(h, t, d, ctx, m);
    }
  }

  lemma ReceiveClaims(h: Hub, t: TaskId, d: Name, svc: Name, sid: SessionId, m: Moment)
    requires Runner(h, d, Auto(svc, sid)) && NoDup(m.order)
    ensures Claims(Receive(h, t, svc, sid, m), t, d)
  {
    var (s1, busy) := AbortIfBusy(h.store, d, sid, m.now);
    if !busy {
      AcquireLockClaims(h.(store := s1), t, d, Auto(svc, sid), m);
    }
  }

  lemma DequeuedClaims(h: Hub, t: TaskId, m: Moment)
    requires HasWork(h, t) && Runner(h, t.device, Auto(h.queues[t.device][0].0, h.queues[t.device][0].1)) && NoDup(m.order)
    ensures Claims(Dequeued(h, t, m), t, t.device)
  {
    var (svc, sid) := h.queues[t.device][0];
    var h1 := h.(queues := h.queues[t.device := h.queues[t.device][1..]], store := TakenOff(h.store, svc));
    ReceiveClaims(h1, t, t.device, svc, sid, m);
  }

  // -- the reclaim loop -------------------------------------------------------------------

  // Stopping the first candidate moves its memory from what will be freed to what is projected.
  lemma StopMovesMemory(cfg: Config, s: Store, r: Store, d: Name, todo: seq<Name>, projected: int)
    requires Tracked(cfg, s, d) && d in r.devices && Projects(cfg, s, d, todo, projected) && NoDup(cfg.names) && Sized(s.services)
    requires todo != [] && todo[0] in cfg.names && SameSizes(s.services, r.services)
    requires r.devices[d].running == s.devices[d].running - {todo[0]}
    ensures Projects(cfg, r, d, todo[1..], projected + Memory(s.services, todo[0]))
    ensures projected + Memory(s.services, todo[0]) <= Room(cfg, r, d)
  {
    var running, fewer := s.devices[d].running, r.devices[d].running;
    FreedGrows(cfg.names, todo, running, fewer, s.services);
    FreedFirst(cfg.names, todo, fewer, s.services);
    FreedNonNegative(cfg.names, todo[1..], fewer, s.services);
    SameLoadSizes(cfg.names, fewer, s.services, r.services);
    SameFreedSizes(cfg.names, todo[1..], fewer, s.services, r.services);
  }

  lemma ReclaimOnClaims(h: Hub, t: TaskId, d: Name, ctx: Context, deadline: Time, todo: seq<Name>, freed: int, names: seq<Name>)
    requires d in h.store.devices && Runner(h, d, ctx) && todo != [] && Projects(h.cfg, h.store, d, todo[1..], freed)
    requires Tracked(h.cfg, h.store, d) ==> freed <= Room(h.cfg, h.store, d)
    ensures Claims(ReclaimOn(h, t, d, ctx, deadline, todo, freed, names), t, d)
  {
    if freed >= h.store.services[ctx.svc].def.memory {
      var s1 := if ctx.Auto? then NotePending(h.store, d, ctx.sid, names) else h.store;
      RoomSame(h.cfg, h.store, s1, d, ctx.svc);
      AdmitClaims(h.(store := s1), t, d, ctx);
    }
  }

  lemma StopForReclaimUse(s: Store, d: Name, ctx: Context, n: Name, now: Time)
    requires n in s.services && d in s.devices && s.services[n].def.device == d
    ensures var r := StopForReclaim(s, ctx, n, now);
            SameSizes(s.services, r.services) && d in r.devices && r.devices[d].running == s.devices[d].running - {n}
  {
  }

  lemma ReclaimedClaims(h: Hub, t: TaskId, outcome: Outcome, m: Moment)
    requires t in h.tasks && h.tasks[t].Reclaiming? && KnownTask(h.store, TaskDevice(h, t), h.tasks[t])
    requires Claims(h, t, TaskDevice(h, t)) && NoDup(h.cfg.names) && Sized(h.store.services)
    requires forall n :: n in h.store.services ==> n in h.cfg.names
    ensures Claims(Reclaimed(h, t, outcome, m), t, TaskDevice(h, t))
  {
    var d := TaskDevice(h, t);
    var Reclaiming(ctx, deadline, todo, projected, reclaimed) := h.tasks[t];
    match outcome
    case RaisesRuntimeError =>
    case RaisesOther => GiveUpClaims(SetWaiting(h, d, ctx.svc, false), t, d, ctx, m);
    case Succeeds =>
      assert todo[0] in todo;
      var s1 := StopForReclaim(h.store, ctx, todo[0], m.now);
      StopForReclaimUse(h.store, d, ctx, todo[0], m.now);
      if Tracked(h.cfg, h.store, d) {
        StopMovesMemory(h.cfg, h.store, s1, d, todo, projected);
      }
      ReclaimOnClaims(h.(store := s1), t, d, ctx, deadline, todo, projected + s1.services[todo[0]].def.memory, reclaimed + [todo[0]]);
  }

  lemma AfterLaunchClaims(h: Hub, t: TaskId, ok: bool, m: Moment)
    requires t in h.tasks && h.tasks[t].Launching? && KnownTask(h.store, TaskDevice(h, t), h.tasks[t])
    ensures Claims(AfterLaunch(h, t, ok, m), t, TaskDevice(h, t))
  {
    var ctx := h.tasks[t].ctx;
    if !ok {
      GiveUpClaims(h, t, TaskDevice(h, t), ctx, m);
    } else {
      ProceedClaims(Unlock(h.(store := MarkStarted(h.store, ctx.svc, m.now)), ctx.svc), t, TaskDevice(h, t), ctx, m);
    }
  }

  lemma AfterAnswerClaims(h: Hub, t: TaskId, ok: bool, payload: Payload, m: Moment)
    requires t in h.tasks && h.tasks[t].Forwarding? && KnownTask(h.store, TaskDevice(h, t), h.tasks[t])
    ensures Claims(AfterAnswer(h, t, ok, payload, m), t, TaskDevice(h, t))
  {
    var Forwarding(svc, sid) := h.tasks[t];
    if ok {
      FinishSessionClaims(h.(store := Completed(h.store, svc, sid, payload, m.now)), t, TaskDevice(h, t), svc, sid, m);
    } else {
      FailSessionClaims(h, t, TaskDevice(h, t), svc, sid, m);
    }
  }

  lemma AfterOnceStopClaims(h: Hub, t: TaskId, ok: bool, m: Moment)
    requires t in h.tasks && h.tasks[t].StoppingOnce? && KnownTask(h.store, TaskDevice(h, t), h.tasks[t])
    ensures Claims(AfterOnceStop(h, t, ok, m), t, TaskDevice(h, t))
  {
    if ok {
      BeginRestoreClaims(h.(store := MarkStopped(h.store, h.tasks[t].svc, m.now)), t, TaskDevice(h, t), h.tasks[t].sid, m);
    }
  }

  lemma AfterRestoreClaims(h: Hub, t: TaskId, ok: bool, m: Moment)
    requires t in h.tasks && h.tasks[t].Restoring? && KnownTask(h.store, TaskDevice(h, t), h.tasks[t])
    ensures Claims(AfterRestore(h, t, ok, m), t, TaskDevice(h, t))
  {
    var h1 := h.(store := MarkStarted(h.store, h.tasks[t].svc, m.now));
    if ok && TaskDevice(h, t) in h1.store.devices {
      RestoreNextClaims(h1, t, TaskDevice(h, t), h.tasks[t].rest);
    }
  }
}
