/** The way of a request up to its upstream call, told by the records alone: what a task does that
    comes to the start of its service, to the end of a pause, to the end of a stop command or to the
    end of the start itself. */
module HubStarts {
  import opened Wrappers
  import opened HubTypes
  import opened HubStore
  import opened HubScheduler
  import opened HubMachine
  import opened HubSlots
  import opened HubLoad
  import opened HubClaims
  import opened HubReclaim
  import opened HubSafety
  import opened HubBackwards
  import opened HubEnds
  import opened Seqs

  // -- what can come of it ----------------------------------------------------------------

  // The request is counted, once on the service and once on its device, and forwarded.
  ghost predicate Forwards(s: Store, r: Hub, t: TaskId, svc: Name, sid: SessionId, now: Time) {
    && svc in s.services && svc in r.store.services && sid in r.store.sessions && t in r.tasks && r.tasks[t] == Forwarding(svc, sid)
    && r.store.services[svc].inflight == s.services[svc].inflight + 1
    && r.store.services[svc].activeSession == Some(sid) && r.store.services[svc].status == Processing
    && r.store.sessions[sid].status == SessionProcessing && r.store.sessions[sid].startedAt == Some(now)
    && forall e :: e in s.devices ==>
         e in r.store.devices
         && r.store.devices[e].active == s.devices[e].active + if e == s.services[svc].def.device then 1 else 0
  }

  // The device is busy: the session has failed, and the worker is back at its queue.
  ghost predicate TurnsAway(s: Store, r: Hub, t: TaskId, sid: SessionId, now: Time) {
    && t in r.tasks && r.tasks[t] == Waiting && sid in r.store.sessions
    && r.store.sessions[sid].status == Failed && r.store.sessions[sid].finishedAt == Some(now) && SameRunning(s, r.store)
  }

  // The service is up; a start request is answered.
  ghost predicate Proceeds(s: Store, r: Hub, t: TaskId, ctx: Context, now: Time) {
    match ctx
    case Auto(svc, sid) =>
      svc in s.services && if FindsBusy(s, s.services[svc].def.device, sid, now) then TurnsAway(s, r, t, sid, now) else Forwards(s, r, t, svc, sid, now)
    case Explicit(_) => r.store == s && t !in r.tasks
  }

  // The start command is under way.
  ghost predicate Launches(s: Store, r: Hub, t: TaskId, ctx: Context) {
    && t in r.tasks && r.tasks[t] == Launching(ctx) && ctx.svc in r.store.services && r.store.services[ctx.svc].status == Starting
    && (ctx.Auto? ==> ctx.sid in r.store.sessions && r.store.sessions[ctx.sid].status == SessionStarting)
    && SameRunning(s, r.store)
  }

  // The services that may be stopped, in order.
  ghost predicate StopList(s: Store, d: Name, target: Name, todo: seq<Name>)
    requires d in s.devices
  {
    && NoDup(todo) && InStopOrder(s.services, todo)
    && forall n :: n in todo <==>
         && n in s.devices[d].running && n in s.services && n != target && s.services[n].inflight <= 0
         && s.services[n].leases == map[] && s.services[n].status in {Idle, HubTypes.Error}
  }

  // The first such service is being stopped; without any the task pauses.
  ghost predicate SeeksRoom(s: Store, r: Hub, t: TaskId, d: Name, ctx: Context, deadline: Time, available: int) {
    && d in r.store.devices && SameRunning(s, r.store) && t in r.tasks
    && exists todo :: StopList(r.store, d, ctx.svc, todo)
         && r.tasks[t] == if todo == [] then Polling(ctx, deadline) else Reclaiming(ctx, deadline, todo, available, [])
  }

  // A session has ended in failure; a start request is answered with the error.
  ghost predicate Fails(h: Hub, r: Hub, t: TaskId, ctx: Context, now: Time) {
    match ctx
    case Auto(svc, sid) => Ended(h, r, t, svc, sid, false, now)
    case Explicit(_) => t !in r.tasks && SameRunning(h.store, r.store)
  }

  // One look at the device memory.
  ghost predicate Looks(h: Hub, r: Hub, t: TaskId, d: Name, ctx: Context, deadline: Time, m: Moment) {
    if m.now >= deadline then ctx.svc !in r.locks && Fails(h, r, t, ctx, m.now)
    else if HasRoom(h, d, ctx.svc) then r.locks == h.locks && Launches(h.store, r, t, ctx)
    else r.locks == h.locks && Tracked(h.cfg, h.store, d) && SeeksRoom(h.store, r, t, d, ctx, deadline, Room(h.cfg, h.store, d))
  }

  // At the lock of the service.
  ghost predicate ComesToStart(h: Hub, r: Hub, t: TaskId, ctx: Context, m: Moment) {
    if ctx.svc in h.locks then r.locks == h.locks && t in r.tasks && r.tasks[t] == Locking(ctx) && SameRunning(h.store, r.store)
    else if IsUp(h.store, ctx.svc) then r.locks == h.locks && Proceeds(h.store, r, t, ctx, m.now)
    else StartsCold(h, r, t, ctx, m)
  }

  // The service is down: launched under the lock, once there is room where memory is tracked.
  ghost predicate StartsCold(h: Hub, r: Hub, t: TaskId, ctx: Context, m: Moment) {
    var h1 := h.(locks := h.locks[ctx.svc := t]);
    if !MustWait(h, ctx.svc) then r.locks == h1.locks && Launches(h.store, r, t, ctx)
    else
      var d := h.store.services[ctx.svc].def.device;
      Looks(h1, r, t, d, ctx, m.now + h.store.devices[d].def.schedulingTimeout * 1_000_000, m)
  }

  // The running services, in the order of this step.
  ghost predicate Ordered(s: Store, d: Name, order: seq<Name>) {
    d in s.devices ==> NoDup(order) && forall n :: n in order <==> n in s.devices[d].running
  }

  // -- the stretches ----------------------------------------------------------------------

  lemma AbortTurns(s: Store, d: Name, sid: SessionId, now: Time)
    requires sid in s.sessions && FindsBusy(s, d, sid, now)
    ensures var r := AbortIfBusy(s, d, sid, now).0; sid in r.sessions && r.sessions[sid].status == Failed && r.sessions[sid].finishedAt == Some(now)
  {
    BusyIs(s, d, sid, now);
  }

  lemma TurnedAway(h: Hub, t: TaskId, svc: Name, sid: SessionId, m: Moment)
    requires t.Worker? && svc in h.store.services && sid in h.store.sessions
    ensures var r := TurnAway(h, t, svc, sid, m);
            && t in r.tasks && r.tasks[t] == Waiting && r.store.sessions == h.store.sessions && SameRunning(h.store, r.store)
            && r.locks == h.locks
  {
    var d := h.store.services[svc].def.device;
    CountersDownDoes(h.store, d, svc);
    SettledDoes(CountersDown(h.store, d, svc), svc, sid, m.now);
  }

  lemma BusyTurns(h: Hub, t: TaskId, svc: Name, sid: SessionId, m: Moment)
    requires t.Worker? && svc in h.store.services && sid in h.store.sessions
    requires FindsBusy(h.store, h.store.services[svc].def.device, sid, m.now)
    ensures var s1 := AbortIfBusy(h.store, h.store.services[svc].def.device, sid, m.now).0;
            && svc in s1.services && sid in s1.sessions
            && TurnsAway(h.store, TurnAway(h.(store := s1), t, svc, sid, m), t, sid, m.now)
            && TurnAway(h.(store := s1), t, svc, sid, m).locks == h.locks
  {
    var d := h.store.services[svc].def.device;
    BusyIs(h.store, d, sid, m.now);
    AbortTurns(h.store, d, sid, m.now);
    TurnedAway(h.(store := AbortIfBusy(h.store, d, sid, m.now).0), t, svc, sid, m);
  }

  lemma DispatchForwards(h: Hub, s: Store, t: TaskId, svc: Name, sid: SessionId, now: Time)
    requires svc in h.store.services && s.services == h.store.services && sid in s.sessions
    requires DevicesStay(h.store, s) && CountsStay(h.store, s)
    ensures Forwards(h.store, SetTask(h.(store := Dispatched(s, h.store.services[svc].def.device, svc, sid, now)), t, Forwarding(svc, sid)), t, svc, sid, now)
  {
  }

  lemma ProceedIs(h: Hub, t: TaskId, ctx: Context, m: Moment)
    requires ctx.svc in h.store.services && (ctx.Auto? ==> ctx.sid in h.store.sessions) && (ctx.Auto? <==> t.Worker?)
    ensures Proceeds(h.store, Proceed(h, t, ctx, m), t, ctx, m.now) && Proceed(h, t, ctx, m).locks == h.locks
  {
    if ctx.Auto? {
      var d := h.store.services[ctx.svc].def.device;
      BusyIs(h.store, d, ctx.sid, m.now);
      if FindsBusy(h.store, d, ctx.sid, m.now) {
        BusyTurns(h, t, ctx.svc, ctx.sid, m);
      } else {
        DispatchForwards(h, AbortIfBusy(h.store, d, ctx.sid, m.now).0, t, ctx.svc, ctx.sid, m.now);
      }
    }
  }

  lemma LaunchIs(h: Hub, t: TaskId, ctx: Context)
    requires ctx.svc in h.store.services && (ctx.Auto? ==> ctx.sid in h.store.sessions)
    ensures Launches(h.store, Launch(h, t, ctx), t, ctx) && Launch(h, t, ctx).locks == h.locks
  {
  }

  lemma SeeksIs(h: Hub, t: TaskId, d: Name, ctx: Context, deadline: Time, m: Moment)
    requires Tracked(h.cfg, h.store, d) && Ordered(h.store, d, m.order)
    ensures SeeksRoom(h.store, LookForRoom(h, t, d, ctx, deadline, m), t, d, ctx, deadline, Room(h.cfg, h.store, d))
    ensures LookForRoom(h, t, d, ctx, deadline, m).locks == h.locks
  {
    var swept := Sweep(h.store, Probed(h.store, d, ctx.svc), m.now);
    var todo := Candidates(swept, d, ctx.svc, m.order);
    CandidatesSorted(swept, d, ctx.svc, m.order);
    assert StopList(swept, d, ctx.svc, todo);
  }

  lemma GiveUpFails(h: Hub, t: TaskId, d: Name, ctx: Context, m: Moment)
    requires d in h.store.devices && ctx.svc in h.store.services && (ctx.Auto? ==> ctx.sid in h.store.sessions) && (ctx.Auto? <==> t.Worker?)
    ensures var r := GiveUp(SetWaiting(h, d, ctx.svc, false), t, ctx, m); ctx.svc !in r.locks && Fails(h, r, t, ctx, m.now)
  {
    if ctx.Auto? {
      WaitEnds(h, t, d, ctx.svc, ctx.sid, m);
      GiveUpUnlocks(SetWaiting(h, d, ctx.svc, false), t, ctx, m);
    }
  }

  lemma BeginRestoreLocks(h: Hub, t: TaskId, d: Name, sid: SessionId, m: Moment)
    ensures BeginRestore(h, t, d, sid, m).locks == h.locks
  {
  }

  lemma GiveUpUnlocks(h: Hub, t: TaskId, ctx: Context, m: Moment)
    requires ctx.svc in h.store.services && (ctx.Auto? ==> ctx.sid in h.store.sessions)
    ensures GiveUp(h, t, ctx, m).locks == h.locks - {ctx.svc}
  {
    if ctx.Auto? {
      var h1 := Unlock(h, ctx.svc);
      var s1 := Finally(Broken(h.store, ctx.svc, ctx.sid, m.now), h.store.services[ctx.svc].def.device, ctx.svc, ctx.sid, m.now);
      BeginRestoreLocks(h1.(store := Sweep(s1, {ctx.svc}, m.now)), t, h.store.services[ctx.svc].def.device, ctx.sid, m);
    }
  }

  lemma PollIs(h: Hub, t: TaskId, d: Name, ctx: Context, deadline: Time, m: Moment)
    requires d in h.store.devices && ctx.svc in h.store.services && (ctx.Auto? ==> ctx.sid in h.store.sessions) && (ctx.Auto? <==> t.Worker?)
    requires Ordered(h.store, d, m.order)
    ensures Looks(h, Poll(h, t, d, ctx, deadline, m), t, d, ctx, deadline, m)
  {
    if m.now >= deadline {
      GiveUpFails(h, t, d, ctx, m);
    } else if HasRoom(h, d, ctx.svc) {
      LaunchIs(SetWaiting(h, d, ctx.svc, false), t, ctx);
    } else {
      SeeksIs(h, t, d, ctx, deadline, m);
    }
  }

  // What a start looks at is the same in both hubs.
  ghost predicate SameStart(h: Hub, h1: Hub, svc: Name) {
    && h1.cfg == h.cfg && h1.locks == h.locks && Alike(h.store, h1.store, svc)
    && h1.store.services[svc].status == h.store.services[svc].status && SameSizes(h.store.services, h1.store.services)
    && (forall d :: d in h.store.devices ==> h1.store.devices[d].def == h.store.devices[d].def)
  }

  lemma SameRoom(h: Hub, h1: Hub, d: Name, svc: Name)
    requires SameStart(h, h1, svc)
    ensures HasRoom(h1, d, svc) == HasRoom(h, d, svc) && (Tracked(h.cfg, h.store, d) <==> Tracked(h1.cfg, h1.store, d))
    ensures Tracked(h.cfg, h.store, d) ==> Room(h1.cfg, h1.store, d) == Room(h.cfg, h.store, d)
  {
    if d in h.store.devices {
      SameLoadSizes(h.cfg.names, h.store.devices[d].running, h.store.services, h1.store.services);
    }
  }

  lemma LooksAlike(h: Hub, h1: Hub, r: Hub, t: TaskId, d: Name, ctx: Context, deadline: Time, m: Moment)
    requires SameStart(h, h1, ctx.svc) && Looks(h1, r, t, d, ctx, deadline, m)
    ensures Looks(h, r, t, d, ctx, deadline, m)
  {
    SameRoom(h, h1, d, ctx.svc);
    if m.now >= deadline && ctx.Auto? {
      EndedAlike(h, h1, r, t, ctx.svc, ctx.sid, false, m.now);
    }
  }

  lemma WaitingSame(h: Hub, d: Name, svc: Name, waits: bool)
    requires d in h.store.devices && svc in h.store.services
    ensures SameStart(h, SetWaiting(h, d, svc, waits), svc)
  {
  }

  lemma WaitPolls(h: Hub, t: TaskId, d: Name, ctx: Context, m: Moment) returns (h1: Hub, r: Hub)
    requires d in h.store.devices && ctx.svc in h.store.services && (ctx.Auto? ==> ctx.sid in h.store.sessions)
    requires Ordered(h.store, d, m.order)
    ensures SameStart(h, h1, ctx.svc) && Ordered(h1.store, d, m.order) && d in h1.store.devices
    ensures ctx.svc in h1.store.services && (ctx.Auto? ==> ctx.sid in h1.store.sessions)
    ensures r == Poll(h1, t, d, ctx, m.now + h.store.devices[d].def.schedulingTimeout * 1_000_000, m)
    ensures r == WaitForMemory(h, t, d, ctx, m)
  {
    h1, r := SetWaiting(h, d, ctx.svc, true), WaitForMemory(h, t, d, ctx, m);
    WaitingSame(h, d, ctx.svc, true);
  }

  lemma PolledIs(h: Hub, h1: Hub, r: Hub, t: TaskId, d: Name, ctx: Context, deadline: Time, m: Moment)
    requires SameStart(h, h1, ctx.svc) && Ordered(h1.store, d, m.order) && d in h1.store.devices && (ctx.Auto? <==> t.Worker?)
    requires ctx.svc in h1.store.services && (ctx.Auto? ==> ctx.sid in h1.store.sessions) && r == Poll(h1, t, d, ctx, deadline, m)
    ensures Looks(h, r, t, d, ctx, deadline, m)
  {
    PollIs(h1, t, d, ctx, deadline, m);
    LooksAlike(h, h1, r, t, d, ctx, deadline, m);
  }

  lemma WaitIs(h: Hub, t: TaskId, d: Name, ctx: Context, deadline: Time, m: Moment)
    requires d in h.store.devices && ctx.svc in h.store.services && (ctx.Auto? ==> ctx.sid in h.store.sessions) && (ctx.Auto? <==> t.Worker?)
    requires Ordered(h.store, d, m.order) && deadline == m.now + h.store.devices[d].def.schedulingTimeout * 1_000_000
    ensures Looks(h, WaitForMemory(h, t, d, ctx, m), t, d, ctx, deadline, m)
  {
    var h1, r := WaitPolls(h, t, d, ctx, m);
    PolledIs(h, h1, r, t, d, ctx, deadline, m);
  }

  lemma ColdIs(h: Hub, t: TaskId, ctx: Context, m: Moment)
    requires ctx.svc in h.store.services && (ctx.Auto? ==> ctx.sid in h.store.sessions) && (ctx.Auto? <==> t.Worker?)
    requires Ordered(h.store, h.store.services[ctx.svc].def.device, m.order)
    ensures StartsCold(h, ColdStart(h, t, ctx, m), t, ctx, m)
  {
    var h1, d := h.(locks := h.locks[ctx.svc := t]), h.store.services[ctx.svc].def.device;
    if MustWait(h, ctx.svc) {
      WaitIs(h1, t, d, ctx, m.now + h.store.devices[d].def.schedulingTimeout * 1_000_000, m);
    } else {
      LaunchIs(h1, t, ctx);
    }
  }

  lemma StartIs(h: Hub, t: TaskId, ctx: Context, m: Moment)
    requires ctx.svc in h.store.services && (ctx.Auto? ==> ctx.sid in h.store.sessions) && (ctx.Auto? <==> t.Worker?)
    requires Ordered(h.store, h.store.services[ctx.svc].def.device, m.order)
    ensures ComesToStart(h, AcquireLock(h, t, ctx, m), t, ctx, m)
  {
    if ctx.svc !in h.locks {
      if IsUp(h.store, ctx.svc) {
        ProceedIs(h, t, ctx, m);
      } else {
        ColdIs(h, t, ctx, m);
      }
    }
  }

  // -- the steps --------------------------------------------------------------------------

  // The worker's hub behind its first busy check.
  function Taken(h: Hub, t: TaskId, now: Time): Hub
    requires HasWork(h, t)
  {
    var (svc, sid) := h.queues[t.device][0];
    var s1 := TakenOff(h.store, svc);
    h.(queues := h.queues[t.device := h.queues[t.device][1..]], store := AbortIfBusy(s1, s1.services[svc].def.device, sid, now).0)
  }

  // At most, slots that have run out are gone.
  predicate AtMostPruned(rt: DeviceRuntime, mid: DeviceRuntime, now: Time) {
    && mid == rt.(slots := mid.slots)
    && (forall k :: k in mid.slots ==> k in rt.slots && mid.slots[k] == rt.slots[k])
    && forall k :: k in rt.slots && rt.slots[k] > now ==> k in mid.slots
  }

  // The next session is off the queue, and the device has been asked for a slot.
  ghost predicate TookNext(h: Hub, mid: Hub, t: TaskId, now: Time)
    requires HasWork(h, t)
  {
    var svc := h.queues[t.device][0].0;
    && mid == h.(queues := h.queues[t.device := h.queues[t.device][1..]], store := mid.store)
    && mid.store.sessions == h.store.sessions && mid.store.results == h.store.results
    && mid.store.services == h.store.services[svc := h.store.services[svc].(queueSize := h.store.services[svc].queueSize - 1)]
    && (forall d :: d in h.store.devices <==> d in mid.store.devices)
    && forall d :: d in h.store.devices ==> AtMostPruned(h.store.devices[d], mid.store.devices[d], now)
  }

  lemma AbortPrunes(s: Store, d: Name, sid: SessionId, now: Time)
    requires sid in s.sessions
    ensures var (r, busy) := AbortIfBusy(s, d, sid, now);
            && r.services == s.services && r.results == s.results && (!busy ==> r.sessions == s.sessions)
            && (forall e :: e in s.devices <==> e in r.devices)
            && forall e :: e in s.devices ==> AtMostPruned(s.devices[e], r.devices[e], now)
  {
  }

  lemma TakenIs(h: Hub, t: TaskId, now: Time)
    requires HasWork(h, t)
    ensures var (svc, sid) := h.queues[t.device][0];
            !FindsBusy(h.store, h.store.services[svc].def.device, sid, now) ==> TookNext(h, Taken(h, t, now), t, now)
  {
    var (svc, sid) := h.queues[t.device][0];
    var s1 := TakenOff(h.store, svc);
    BusyIs(s1, h.store.services[svc].def.device, sid, now);
    AbortPrunes(s1, h.store.services[svc].def.device, sid, now);
  }

  lemma DequeuedIs(h: Hub, t: TaskId, m: Moment)
    requires HasWork(h, t)
    ensures var (svc, sid) := h.queues[t.device][0];
            var d := h.store.services[svc].def.device;
            && sid in Taken(h, t, m.now).store.sessions && svc in Taken(h, t, m.now).store.services
            && Dequeued(h, t, m) == if FindsBusy(h.store, d, sid, m.now) then TurnAway(Taken(h, t, m.now), t, svc, sid, m)
                                    else AcquireLock(Taken(h, t, m.now), t, Auto(svc, sid), m)
  {
    var (svc, sid) := h.queues[t.device][0];
    BusyIs(TakenOff(h.store, svc), h.store.services[svc].def.device, sid, m.now);
  }

  ghost predicate DequeueDone(h: Hub, r: Hub, t: TaskId, m: Moment)
    requires HasWork(h, t)
  {
    var (svc, sid) := h.queues[t.device][0];
    if FindsBusy(h.store, t.device, sid, m.now) then TurnsAway(h.store, r, t, sid, m.now)
    else exists mid :: TookNext(h, mid, t, m.now) && ComesToStart(mid, r, t, Auto(svc, sid), m)
  }

  lemma DequeueStarts(h: Hub, t: TaskId, svc: Name, sid: SessionId, m: Moment)
    requires HasWork(h, t) && h.queues[t.device][0] == (svc, sid) && h.store.services[svc].def.device == t.device
    requires !FindsBusy(h.store, t.device, sid, m.now) && Ordered(h.store, t.device, m.order)
    ensures TookNext(h, Taken(h, t, m.now), t, m.now) && ComesToStart(Taken(h, t, m.now), Dequeued(h, t, m), t, Auto(svc, sid), m)
  {
    TakenIs(h, t, m.now);
    DequeuedIs(h, t, m);
    StartIs(Taken(h, t, m.now), t, Auto(svc, sid), m);
  }

  lemma DequeueTurns(h: Hub, t: TaskId, svc: Name, sid: SessionId, m: Moment)
    requires HasWork(h, t) && h.queues[t.device][0] == (svc, sid) && h.store.services[svc].def.device == t.device
    requires FindsBusy(h.store, t.device, sid, m.now)
    ensures TurnsAway(h.store, Dequeued(h, t, m), t, sid, m.now)
  {
    var s1 := TakenOff(h.store, svc);
    DequeuedIs(h, t, m);
    BusyIs(s1, t.device, sid, m.now);
    AbortTurns(s1, t.device, sid, m.now);
    TurnedAway(Taken(h, t, m.now), t, svc, sid, m);
  }

  /** A worker takes the next session: with no free slot for it the session fails at once; otherwise
      the worker comes to the start of the service. */
  lemma DequeueIs(h: Hub, t: TaskId, m: Moment)
    requires Shape(h) && HasWork(h, t) && Ordered(h.store, t.device, m.order)
    ensures DequeueDone(h, Step(h, Dequeue(t), m), t, m)
  {
    var (svc, sid) := h.queues[t.device][0];
    assert KnownContext(h.store, t.device, Auto(h.queues[t.device][0].0, h.queues[t.device][0].1));
    if FindsBusy(h.store, t.device, sid, m.now) {
      DequeueTurns(h, t, svc, sid, m);
    } else {
      DequeueStarts(h, t, svc, sid, m);
    }
  }

  /** A task gets the start lock: it comes to the start of the service; while the lock is held nothing
      happens. */
  lemma GrantIs(h: Hub, t: TaskId, m: Moment)
    requires Shape(h) && t in h.tasks && h.tasks[t].Locking? && Ordered(h.store, TaskDevice(h, t), m.order)
    ensures var r := Step(h, Grant(t), m);
            if h.tasks[t].ctx.svc in h.locks then r == h else ComesToStart(h, r, t, h.tasks[t].ctx, m)
  {
    assert KnownTask(h.store, TaskDevice(h, t), h.tasks[t]) && RightTask(t, h.tasks[t]);
    if h.tasks[t].ctx.svc !in h.locks {
      StartIs(h, t, h.tasks[t].ctx, m);
      assert EnsureStarted(h, t, h.tasks[t].ctx, m) == AcquireLock(h, t, h.tasks[t].ctx, m);
    }
  }

  /** An explicit start of a stopped or failed service comes to its start like a worker. */
  lemma HttpStartIs(h: Hub, t: TaskId, svc: Name, m: Moment)
    requires Shape(h) && t.Http? && t !in h.tasks && svc in h.store.services && h.store.services[svc].status in {Stopped, HubTypes.Error}
    requires Ordered(h.store, h.store.services[svc].def.device, m.order)
    ensures ComesToStart(h, Step(h, HttpStart(t, svc), m), t, Explicit(svc), m)
  {
    StartIs(h, t, Explicit(svc), m);
  }

  /** The end of a pause: the deadline fails the start, enough memory launches it, and otherwise the
      services that may be stopped are looked up anew. */
  lemma WakeIs(h: Hub, t: TaskId, m: Moment)
    requires Shape(h) && t in h.tasks && h.tasks[t].Polling? && Ordered(h.store, TaskDevice(h, t), m.order)
    ensures Looks(h, Step(h, Wake(t), m), t, TaskDevice(h, t), h.tasks[t].ctx, h.tasks[t].deadline, m)
  {
    assert KnownTask(h.store, TaskDevice(h, t), h.tasks[t]) && RightTask(t, h.tasks[t]);
    PollIs(h, t, TaskDevice(h, t), h.tasks[t].ctx, h.tasks[t].deadline, m);
  }

  // From s to r one service has been reported as started, and nothing else happened.
  ghost predicate OnlyStarted(s: Store, r: Store, svc: Name, now: Time) {
    && WentUp(s, r, svc, now) && r.sessions == s.sessions && r.results == s.results
    && forall d :: d in s.devices ==> r.devices[d] == s.devices[d].(running := r.devices[d].running)
  }

  lemma MarkedStarted(s: Store, svc: Name, now: Time)
    requires svc in s.services
    ensures OnlyStarted(s, MarkStarted(s, svc, now), svc, now)
  {
  }

  // The start went well, and its request goes on.
  ghost predicate StartedAndProceeds(h: Hub, r: Hub, t: TaskId, ctx: Context, now: Time) {
    exists s :: OnlyStarted(h.store, s, ctx.svc, now) && Proceeds(s, r, t, ctx, now)
  }

  lemma LaunchGoesOn(h: Hub, t: TaskId, ctx: Context, m: Moment)
    requires ctx.svc in h.store.services && (ctx.Auto? ==> ctx.sid in h.store.sessions) && (ctx.Auto? <==> t.Worker?)
    ensures ctx.svc in MarkStarted(h.store, ctx.svc, m.now).services
    ensures var r := Proceed(Unlock(h.(store := MarkStarted(h.store, ctx.svc, m.now)), ctx.svc), t, ctx, m);
            r.locks == h.locks - {ctx.svc} && StartedAndProceeds(h, r, t, ctx, m.now)
  {
    var s := MarkStarted(h.store, ctx.svc, m.now);
    MarkedStarted(h.store, ctx.svc, m.now);
    ProceedIs(Unlock(h.(store := s), ctx.svc), t, ctx, m);
  }

  lemma LaunchFails(h: Hub, t: TaskId, ctx: Context, m: Moment)
    requires ctx.svc in h.store.services && (ctx.Auto? ==> ctx.sid in h.store.sessions) && (ctx.Auto? <==> t.Worker?)
    ensures var r := GiveUp(h, t, ctx, m); r.locks == h.locks - {ctx.svc} && Fails(h, r, t, ctx, m.now)
  {
    GiveUpUnlocks(h, t, ctx, m);
    if ctx.Auto? {
      GiveUpEnds(h, t, ctx.svc, ctx.sid, m);
    }
  }

  // The end of a start: the lock is free and, if it went well, the service is up and its request
  // goes on; otherwise the start has failed.
  ghost predicate StartOver(h: Hub, r: Hub, t: TaskId, ctx: Context, ok: bool, now: Time) {
    r.locks == h.locks - {ctx.svc} && if ok then StartedAndProceeds(h, r, t, ctx, now) else Fails(h, r, t, ctx, now)
  }

  lemma AfterLaunchIs(h: Hub, t: TaskId, ok: bool, m: Moment)
    requires t in h.tasks && h.tasks[t].Launching? && KnownTask(h.store, TaskDevice(h, t), h.tasks[t]) && RightTask(t, h.tasks[t])
    ensures StartOver(h, AfterLaunch(h, t, ok, m), t, h.tasks[t].ctx, ok, m.now)
  {
    if ok {
      LaunchGoesOn(h, t, h.tasks[t].ctx, m);
    } else {
      LaunchFails(h, t, h.tasks[t].ctx, m);
    }
  }

  /** Every end of a start is as just told. */
  lemma LaunchedIs(h: Hub, t: TaskId, ok: bool, m: Moment)
    requires Shape(h) && t in h.tasks && h.tasks[t].Launching?
    ensures StartOver(h, Step(h, Launched(t, ok), m), t, h.tasks[t].ctx, ok, m.now)
  {
    assert KnownTask(h.store, TaskDevice(h, t), h.tasks[t]) && RightTask(t, h.tasks[t]);
    AfterLaunchIs(h, t, ok, m);
  }

  // -- stops for room ---------------------------------------------------------------------

  // The candidate is down and, if a session wanted it down, remembers that.
  ghost predicate OnlyStopped(s: Store, r: Store, ctx: Context, svc: Name, now: Time) {
    && WentDown(s, r, svc, now) && r.sessions == s.sessions && r.results == s.results
    && r.services[svc].reclaimedFor == s.services[svc].reclaimedFor + (if ctx.Auto? then {ctx.sid} else {})
    && forall d :: d in s.devices ==> r.devices[d] == s.devices[d].(running := r.devices[d].running)
  }

  // Enough is free: what was stopped is noted for a session, and the start is under way.
  ghost predicate HasMadeRoom(s: Store, r: Hub, t: TaskId, d: Name, ctx: Context, stopped: seq<Name>) {
    && Launches(s, r, t, ctx) && d in s.devices && d in r.store.devices
    && r.store.devices[d].pending == if ctx.Auto? then s.devices[d].pending[ctx.sid := stopped] else s.devices[d].pending
  }

  // The candidate is down; with enough free the service is launched, else the next one is stopped.
  ghost predicate StoppedOne(h: Hub, r: Hub, t: TaskId, d: Name, now: Time)
    requires t in h.tasks && h.tasks[t].Reclaiming? && h.tasks[t].todo != []
  {
    var Reclaiming(ctx, deadline, todo, projected, reclaimed) := h.tasks[t];
    && todo[0] in h.store.services && ctx.svc in h.store.services
    && var freed := projected + h.store.services[todo[0]].def.memory;
       exists s :: OnlyStopped(h.store, s, ctx, todo[0], now)
         && if freed >= h.store.services[ctx.svc].def.memory then HasMadeRoom(s, r, t, d, ctx, reclaimed + [todo[0]])
            else r == h.(store := s, tasks := h.tasks[t := if |todo| == 1 then Polling(ctx, deadline)
                                                           else Reclaiming(ctx, deadline, todo[1..], freed, reclaimed + [todo[0]])])
  }

  lemma StoppedDevices(s: Store, n: Name, now: Time)
    requires n in s.services
    ensures var r := MarkStopped(s, n, now);
            && r.sessions == s.sessions && r.results == s.results && r.services.Keys == s.services.Keys
            && forall d :: d in s.devices ==> d in r.devices && r.devices[d] == s.devices[d].(running := r.devices[d].running)
  {
  }

  lemma CandidateStopped(s: Store, ctx: Context, n: Name, now: Time)
    requires n in s.services
    ensures OnlyStopped(s, StopForReclaim(s, ctx, n, now), ctx, n, now)
    ensures StopForReclaim(s, ctx, n, now).services.Keys == s.services.Keys
  {
    MarkedStopped(s, n, now);
    StoppedDevices(s, n, now);
  }

  lemma StoppedDefs(s: Store, r: Store, ctx: Context, n: Name, now: Time)
    requires OnlyStopped(s, r, ctx, n, now)
    ensures forall x :: x in s.services ==> x in r.services && r.services[x].def == s.services[x].def
  {
  }

  lemma AdmitNotes(h: Hub, t: TaskId, d: Name, ctx: Context, stopped: seq<Name>)
    requires d in h.store.devices && ctx.svc in h.store.services && (ctx.Auto? ==> ctx.sid in h.store.sessions)
    ensures var s1 := if ctx.Auto? then NotePending(h.store, d, ctx.sid, stopped) else h.store;
            && d in s1.devices && ctx.svc in s1.services && (ctx.Auto? ==> ctx.sid in s1.sessions)
            && HasMadeRoom(h.store, Admit(h.(store := s1), t, d, ctx), t, d, ctx, stopped)
  {
    var s1 := if ctx.Auto? then NotePending(h.store, d, ctx.sid, stopped) else h.store;
    LaunchIs(SetWaiting(h.(store := s1), d, ctx.svc, false), t, ctx);
  }

  lemma StopSucceeds(h: Hub, t: TaskId, d: Name, m: Moment)
    requires t in h.tasks && h.tasks[t].Reclaiming? && d == TaskDevice(h, t) && KnownTask(h.store, d, h.tasks[t])
    ensures StoppedOne(h, Reclaimed(h, t, Succeeds, m), t, d, m.now)
  {
    var Reclaiming(ctx, deadline, todo, projected, reclaimed) := h.tasks[t];
    assert todo[0] in todo;
    var s := StopForReclaim(h.store, ctx, todo[0], m.now);
    CandidateStopped(h.store, ctx, todo[0], m.now);
    StoppedDefs(h.store, s, ctx, todo[0], m.now);
    AdmitNotes(h.(store := s), t, d, ctx, reclaimed + [todo[0]]);
  }

  // The end of a stop command of the capacity loop: a run-time error of the command goes back to the
  // pause, any other exception fails the start.
  ghost predicate StopOver(h: Hub, r: Hub, t: TaskId, d: Name, outcome: Outcome, now: Time)
    requires t in h.tasks && h.tasks[t].Reclaiming?
  {
    match outcome
    case Succeeds => h.tasks[t].todo != [] && StoppedOne(h, r, t, d, now)
    case RaisesRuntimeError => r == h.(tasks := h.tasks[t := Polling(h.tasks[t].ctx, h.tasks[t].deadline)])
    case RaisesOther => h.tasks[t].ctx.svc !in r.locks && Fails(h, r, t, h.tasks[t].ctx, now)
  }

  lemma ReclaimedIs(h: Hub, t: TaskId, d: Name, outcome: Outcome, m: Moment)
    requires t in h.tasks && h.tasks[t].Reclaiming? && d == TaskDevice(h, t)
    requires KnownTask(h.store, d, h.tasks[t]) && RightTask(t, h.tasks[t])
    ensures StopOver(h, Reclaimed(h, t, outcome, m), t, d, outcome, m.now)
  {
    if outcome == Succeeds {
      StopSucceeds(h, t, d, m);
    } else if outcome == RaisesOther {
      GiveUpFails(h, t, d, h.tasks[t].ctx, m);
    }
  }

  /** Every end of a stop command is as just told. */
  lemma ReclaimStoppedIs(h: Hub, t: TaskId, outcome: Outcome, m: Moment)
    requires Shape(h) && t in h.tasks && h.tasks[t].Reclaiming?
    ensures StopOver(h, Step(h, ReclaimStopped(t, outcome), m), t, TaskDevice(h, t), outcome, m.now)
  {
    assert KnownTask(h.store, TaskDevice(h, t), h.tasks[t]) && RightTask(t, h.tasks[t]);
    ReclaimedIs(h, t, TaskDevice(h, t), outcome, m);
  }
}
