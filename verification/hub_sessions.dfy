/** What a stretch of task code does to the sessions: it carries its own session along and
    leaves all others, and all results, alone. */
module HubSessions {
  import opened Wrappers
  import opened HubTypes
  import opened HubStore
  import opened HubScheduler
  import opened HubMachine

  function TaskAt(h: Hub, t: TaskId): Option<Task> {
    if t in h.tasks then Some(h.tasks[t]) else None
  }

  function Who(ctx: Context): Option<SessionId> {
    match ctx
    case Auto(_, sid) => Some(sid)
    case Explicit(_) => None
  }

  // The session a task still has to bring to its end.
  function Holding(task: Option<Task>): Option<SessionId> {
    match task
    case Some(Locking(ctx)) => Who(ctx)
    case Some(Polling(ctx, _)) => Who(ctx)
    case Some(Reclaiming(ctx, _, _, _, _)) => Who(ctx)
    case Some(Launching(ctx)) => Who(ctx)
    case Some(Forwarding(_, sid)) => Some(sid)
    case _ => None
  }

  // The status a held session has, unless a lease failed it meanwhile.
  function Phase(task: Option<Task>): SessionStatus {
    match task
    case Some(Launching(_)) => SessionStarting
    case Some(Forwarding(_, _)) => SessionProcessing
    case _ => Queued
  }

  ghost predicate SameSessions(s: Store, r: Store) {
    r.sessions == s.sessions && r.results == s.results
  }

  ghost predicate OneSession(s: Store, r: Store, sid: SessionId) {
    && sid in s.sessions && sid in r.sessions
    && r.sessions == s.sessions[sid := r.sessions[sid]] && r.sessions[sid].service == s.sessions[sid].service
  }

  // The session ended in failure, or goes on in the phase of the task.
  ghost predicate Advanced(s: Store, r: Store, sid: SessionId, task: Option<Task>) {
    && OneSession(s, r, sid)
    && match Holding(task)
       case None => r.sessions[sid].status == Failed
       case Some(x) => x == sid && r.sessions[sid].status == if Phase(task) == Queued then s.sessions[sid].status else Phase(task)
  }

  // From s to r, the task that now is as given carried session who along, without completing it.
  ghost predicate Carried(s: Store, r: Store, who: Option<SessionId>, task: Option<Task>) {
    && r.results == s.results
    && match who
       case None => r.sessions == s.sessions && Holding(task) == None
       case Some(sid) => Advanced(s, r, sid, task)
  }

  ghost predicate Completes(s: Store, r: Store, sid: SessionId, task: Option<Task>) {
    && OneSession(s, r, sid) && r.sessions[sid].status == Finished
    && sid in r.results && r.results == s.results[sid := r.results[sid]]
    && Holding(task) == None
  }

  // The task is through with its session, and changed none.
  ghost predicate Frees(h: Hub, r: Hub, t: TaskId) {
    SameSessions(h.store, r.store) && Holding(TaskAt(r, t)) == None
  }

  ghost predicate Carries(h: Hub, r: Hub, t: TaskId, who: Option<SessionId>) {
    Carried(h.store, r.store, who, TaskAt(r, t))
  }

  // -- after a session --------------------------------------------------------------------

  lemma FinallySame(s: Store, d: Name, svc: Name, sid: SessionId, now: Time)
    requires svc in s.services && sid in s.sessions
    ensures SameSessions(s, Finally(s, d, svc, sid, now))
  {
  }

  lemma RestoreNextFrees(h: Hub, t: TaskId, d: Name, todo: seq<Name>)
    requires d in h.store.devices
    ensures Frees(h, RestoreNext(h, t, d, todo), t)
  {
  }

  lemma BeginRestoreFrees(h: Hub, t: TaskId, d: Name, sid: SessionId, m: Moment)
    ensures Frees(h, BeginRestore(h, t, d, sid, m), t)
  {
    if d in h.store.devices {
      var h1 := h.(store := Forgotten(h.store, d, sid));
      RestoreNextFrees(h1, t, d, RestoreOrder(h1.store, d, m.now, PendingOf(h.store, d, sid)));
    }
  }

  lemma AfterSessionFrees(h: Hub, t: TaskId, d: Name, svc: Name, sid: SessionId, m: Moment)
    requires svc in h.store.services
    ensures Frees(h, AfterSession(h, t, d, svc, sid, m), t)
  {
    BeginRestoreFrees(h.(store := Sweep(h.store, {svc}, m.now)), t, d, sid, m);
  }

  lemma FinishSessionFrees(h: Hub, t: TaskId, svc: Name, sid: SessionId, m: Moment)
    requires svc in h.store.services && sid in h.store.sessions
    ensures Frees(h, FinishSession(h, t, svc, sid, m), t)
  {
    var d := h.store.services[svc].def.device;
    FinallySame(h.store, d, svc, sid, m.now);
    AfterSessionFrees(h.(store := Finally(h.store, d, svc, sid, m.now)), t, d, svc, sid, m);
  }

  lemma FailSessionCarries(h: Hub, t: TaskId, svc: Name, sid: SessionId, m: Moment)
    requires svc in h.store.services && sid in h.store.sessions
    ensures Carries(h, FailSession(h, t, svc, sid, m), t, Some(sid))
  {
    FinishSessionFrees(h.(store := Broken(h.store, svc, sid, m.now)), t, svc, sid, m);
  }

  lemma TurnAwayFrees(h: Hub, t: TaskId, svc: Name, sid: SessionId, m: Moment)
    requires svc in h.store.services && sid in h.store.sessions
    ensures Frees(h, TurnAway(h, t, svc, sid, m), t)
  {
    FinallySame(h.store, h.store.services[svc].def.device, svc, sid, m.now);
  }

  // -- before a session -------------------------------------------------------------------

  // A busy device fails the session and nothing else; otherwise no session changes.
  lemma AbortSessions(s: Store, d: Name, sid: SessionId, now: Time)
    requires sid in s.sessions
    ensures var (r, busy) := AbortIfBusy(s, d, sid, now);
            && r.results == s.results && r.services == s.services
            && if busy then OneSession(s, r, sid) && r.sessions[sid].status == Failed else r.sessions == s.sessions
  {
  }

  ghost predicate PastStart(task: Option<Task>) {
    Holding(task) == None || Phase(task) == SessionProcessing
  }

  lemma TryDispatchCarries(h: Hub, t: TaskId, svc: Name, sid: SessionId, m: Moment)
    requires svc in h.store.services && sid in h.store.sessions
    ensures Carries(h, TryDispatch(h, t, svc, sid, m), t, Some(sid))
    ensures PastStart(TaskAt(TryDispatch(h, t, svc, sid, m), t))
  {
    var d := h.store.services[svc].def.device;
    var (s1, busy) := AbortIfBusy(h.store, d, sid, m.now);
    AbortSessions(h.store, d, sid, m.now);
    if busy {
      TurnAwayFrees(h.(store := s1), t, svc, sid, m);
    }
  }

  lemma LaunchCarries(h: Hub, t: TaskId, ctx: Context)
    requires ctx.svc in h.store.services && (ctx.Auto? ==> ctx.sid in h.store.sessions)
    ensures Carries(h, Launch(h, t, ctx), t, Who(ctx))
  {
  }

  lemma GiveUpCarries(h: Hub, t: TaskId, ctx: Context, m: Moment)
    requires ctx.svc in h.store.services && (ctx.Auto? ==> ctx.sid in h.store.sessions)
    ensures Carries(h, GiveUp(h, t, ctx, m), t, Who(ctx)) && Holding(TaskAt(GiveUp(h, t, ctx, m), t)) == None
  {
    if ctx.Auto? {
      FailSessionCarries(Unlock(h, ctx.svc), t, ctx.svc, ctx.sid, m);
      FinishSessionFrees(Unlock(h, ctx.svc).(store := Broken(h.store, ctx.svc, ctx.sid, m.now)), t, ctx.svc, ctx.sid, m);
    }
  }

  lemma CarriesAfterStore(h: Hub, mid: Hub, r: Hub, t: TaskId, who: Option<SessionId>)
    requires SameSessions(h.store, mid.store) && Carries(mid, r, t, who)
    ensures Carries(h, r, t, who)
  {
  }

  lemma PollCarries(h: Hub, t: TaskId, d: Name, ctx: Context, deadline: Time, m: Moment)
    requires d in h.store.devices
    requires ctx.svc in h.store.services && (ctx.Auto? ==> ctx.sid in h.store.sessions)
    ensures Carries(h, Poll(h, t, d, ctx, deadline, m), t, Who(ctx))
  {
    var h1 := SetWaiting(h, d, ctx.svc, false);
    if m.now >= deadline {
      GiveUpCarries(h1, t, ctx, m);
    } else if d !in h.cfg.capacity || Available(h, d) >= h.store.services[ctx.svc].def.memory {
      LaunchCarries(h1, t, ctx);
    } else {
      LookForRoomCarries(h, t, d, ctx, deadline, m);
    }
  }

  lemma LookForRoomCarries(h: Hub, t: TaskId, d: Name, ctx: Context, deadline: Time, m: Moment)
    requires d in h.store.devices && d in h.cfg.capacity && (ctx.Auto? ==> ctx.sid in h.store.sessions)
    ensures Carries(h, LookForRoom(h, t, d, ctx, deadline, m), t, Who(ctx))
  {
  }

  lemma ProceedCarries(h: Hub, t: TaskId, ctx: Context, m: Moment)
    requires ctx.svc in h.store.services && (ctx.Auto? ==> ctx.sid in h.store.sessions)
    ensures Carries(h, Proceed(h, t, ctx, m), t, Who(ctx)) && PastStart(TaskAt(Proceed(h, t, ctx, m), t))
  {
    if ctx.Auto? {
      TryDispatchCarries(h, t, ctx.svc, ctx.sid, m);
    }
  }

  lemma PollAfterCarries(h: Hub, mid: Hub, t: TaskId, d: Name, ctx: Context, deadline: Time, m: Moment)
    requires d in mid.store.devices && SameSessions(h.store, mid.store)
    requires ctx.svc in mid.store.services && (ctx.Auto? ==> ctx.sid in mid.store.sessions)
    ensures Carries(h, Poll(mid, t, d, ctx, deadline, m), t, Who(ctx))
  {
    PollCarries(mid, t, d, ctx, deadline, m);
    CarriesAfterStore(h, mid, Poll(mid, t, d, ctx, deadline, m), t, Who(ctx));
  }

  lemma WaitIsPoll(h: Hub, t: TaskId, d: Name, ctx: Context, m: Moment) returns (mid: Hub, deadline: Time)
    requires d in h.store.devices
    requires ctx.svc in h.store.services && (ctx.Auto? ==> ctx.sid in h.store.sessions)
    ensures d in mid.store.devices && SameSessions(h.store, mid.store)
    ensures ctx.svc in mid.store.services && (ctx.Auto? ==> ctx.sid in mid.store.sessions)
    ensures WaitForMemory(h, t, d, ctx, m) == Poll(mid, t, d, ctx, deadline, m)
  {
    mid, deadline := SetWaiting(h, d, ctx.svc, true), m.now + h.store.devices[d].def.schedulingTimeout * SECOND;
  }

  lemma WaitForMemoryCarries(h: Hub, t: TaskId, d: Name, ctx: Context, m: Moment)
    requires d in h.store.devices
    requires ctx.svc in h.store.services && (ctx.Auto? ==> ctx.sid in h.store.sessions)
    ensures Carries(h, WaitForMemory(h, t, d, ctx, m), t, Who(ctx))
  {
    var mid, deadline := WaitIsPoll(h, t, d, ctx, m);
    PollAfterCarries(h, mid, t, d, ctx, deadline, m);
  }

  lemma ColdStartCarries(h: Hub, t: TaskId, ctx: Context, m: Moment)
    requires ctx.svc in h.store.services && (ctx.Auto? ==> ctx.sid in h.store.sessions)
    ensures Carries(h, ColdStart(h, t, ctx, m), t, Who(ctx))
  {
    var d := h.store.services[ctx.svc].def.device;
    var h1 := h.(locks := h.locks[ctx.svc := t]);
    if d !in h.store.devices || d !in h.cfg.capacity {
      LaunchCarries(h1, t, ctx);
    } else {
      WaitForMemoryCarries(h1, t, d, ctx, m);
    }
  }

  lemma EnsureStartedCarries(h: Hub, t: TaskId, ctx: Context, m: Moment)
    requires ctx.svc in h.store.services && (ctx.Auto? ==> ctx.sid in h.store.sessions)
    ensures Carries(h, EnsureStarted(h, t, ctx, m), t, Who(ctx))
  {
    if h.store.services[ctx.svc].status !in {Stopped, Error} {
      ProceedCarries(h, t, ctx, m);
    } else {
      ColdStartCarries(h, t, ctx, m);
    }
  }

  lemma AcquireLockCarries(h: Hub, t: TaskId, ctx: Context, m: Moment)
    requires ctx.svc in h.store.services && (ctx.Auto? ==> ctx.sid in h.store.sessions)
    ensures Carries(h, AcquireLock(h, t, ctx, m), t, Who(ctx))
  {
    if ctx.svc !in h.locks {
      EnsureStartedCarries(h, t, ctx, m);
    }
  }

  lemma ReceiveCarries(h: Hub, t: TaskId, svc: Name, sid: SessionId, m: Moment)
    requires svc in h.store.services && sid in h.store.sessions
    ensures Carries(h, Receive(h, t, svc, sid, m), t, Some(sid))
  {
    var (s1, busy) := AbortIfBusy(h.store, h.store.services[svc].def.device, sid, m.now);
    AbortSessions(h.store, h.store.services[svc].def.device, sid, m.now);
    if busy {
      TurnAwayFrees(h.(store := s1), t, svc, sid, m);
    } else {
      AcquireLockCarries(h.(store := s1), t, Auto(svc, sid), m);
    }
  }

  lemma DequeuedCarries(h: Hub, t: TaskId, m: Moment)
    requires HasWork(h, t)
    ensures Carries(h, Dequeued(h, t, m), t, Some(h.queues[t.device][0].1))
  {
    var (svc, sid) := h.queues[t.device][0];
    var h1 := h.(queues := h.queues[t.device := h.queues[t.device][1..]], store := TakenOff(h.store, svc));
    ReceiveCarries(h1, t, svc, sid, m);
  }

  lemma ReclaimOnCarries(h: Hub, t: TaskId, d: Name, ctx: Context, deadline: Time, todo: seq<Name>, freed: int, names: seq<Name>)
    requires d in h.store.devices && todo != []
    requires ctx.svc in h.store.services && (ctx.Auto? ==> ctx.sid in h.store.sessions)
    ensures Carries(h, ReclaimOn(h, t, d, ctx, deadline, todo, freed, names), t, Who(ctx))
  {
    var s1 := if ctx.Auto? then NotePending(h.store, d, ctx.sid, names) else h.store;
    LaunchCarries(SetWaiting(h.(store := s1), d, ctx.svc, false), t, ctx);
  }

  lemma ReclaimedCarries(h: Hub, t: TaskId, outcome: Outcome, m: Moment)
    requires t in h.tasks && h.tasks[t].Reclaiming? && KnownTask(h.store, TaskDevice(h, t), h.tasks[t])
    ensures Carries(h, Reclaimed(h, t, outcome, m), t, Who(h.tasks[t].ctx))
  {
    var d := TaskDevice(h, t);
    var Reclaiming(ctx, deadline, todo, projected, reclaimed) := h.tasks[t];
    match outcome
    case RaisesRuntimeError =>
    case RaisesOther => GiveUpCarries(SetWaiting(h, d, ctx.svc, false), t, ctx, m);
    case Succeeds =>
      assert todo[0] in todo;
      var s1 := StopForReclaim(h.store, ctx, todo[0], m.now);
      assert SameSessions(h.store, s1);
      ReclaimOnCarries(h.(store := s1), t, d, ctx, deadline, todo, projected + s1.services[todo[0]].def.memory, reclaimed + [todo[0]]);
  }

  lemma AfterLaunchCarries(h: Hub, t: TaskId, ok: bool, m: Moment)
    requires t in h.tasks && h.tasks[t].Launching? && KnownTask(h.store, TaskDevice(h, t), h.tasks[t])
    ensures Carries(h, AfterLaunch(h, t, ok, m), t, Who(h.tasks[t].ctx))
    ensures PastStart(TaskAt(AfterLaunch(h, t, ok, m), t))
  {
    var ctx := h.tasks[t].ctx;
    if !ok {
      GiveUpCarries(h, t, ctx, m);
    } else {
      var s1 := MarkStarted(h.store, ctx.svc, m.now);
      assert SameSessions(h.store, s1);
      ProceedCarries(Unlock(h.(store := s1), ctx.svc), t, ctx, m);
    }
  }

  lemma AfterAnswerCarries(h: Hub, t: TaskId, ok: bool, payload: Payload, m: Moment)
    requires t in h.tasks && h.tasks[t].Forwarding? && KnownTask(h.store, TaskDevice(h, t), h.tasks[t])
    ensures var r := AfterAnswer(h, t, ok, payload, m);
            && Holding(TaskAt(r, t)) == None
            && if ok then Completes(h.store, r.store, h.tasks[t].sid, TaskAt(r, t)) && r.store.results[h.tasks[t].sid] == payload
               else Carries(h, r, t, Some(h.tasks[t].sid))
  {
    var Forwarding(svc, sid) := h.tasks[t];
    if ok {
      FinishSessionFrees(h.(store := Completed(h.store, svc, sid, payload, m.now)), t, svc, sid, m);
    } else {
      FailSessionCarries(h, t, svc, sid, m);
      FinishSessionFrees(h.(store := Broken(h.store, svc, sid, m.now)), t, svc, sid, m);
    }
  }

  lemma AfterOnceStopFrees(h: Hub, t: TaskId, ok: bool, m: Moment)
    requires t in h.tasks && h.tasks[t].StoppingOnce? && KnownTask(h.store, TaskDevice(h, t), h.tasks[t])
    ensures Frees(h, AfterOnceStop(h, t, ok, m), t)
  {
    if ok {
      BeginRestoreFrees(h.(store := MarkStopped(h.store, h.tasks[t].svc, m.now)), t, TaskDevice(h, t), h.tasks[t].sid, m);
    }
  }

  lemma AfterRestoreFrees(h: Hub, t: TaskId, ok: bool, m: Moment)
    requires t in h.tasks && h.tasks[t].Restoring? && KnownTask(h.store, TaskDevice(h, t), h.tasks[t])
    ensures Frees(h, AfterRestore(h, t, ok, m), t)
  {
    var h1 := h.(store := MarkStarted(h.store, h.tasks[t].svc, m.now));
    if ok && TaskDevice(h, t) in h1.store.devices {
      RestoreNextFrees(h1, t, TaskDevice(h, t), h.tasks[t].rest);
    }
  }

  lemma StopRequestedFrees(h: Hub, t: TaskId, svc: Name, m: Moment)
    requires t !in h.tasks && svc in h.store.services
    ensures Frees(h, StopRequested(h, t, svc, m), t)
  {
  }

  lemma HttpStoppedFrees(h: Hub, t: TaskId, ok: bool, m: Moment)
    requires t in h.tasks && h.tasks[t].HttpStopping? && h.tasks[t].svc in h.store.services
    ensures Frees(h, Done(if ok then h.(store := MarkStopped(h.store, h.tasks[t].svc, m.now)) else h, t), t)
  {
  }

  lemma AfterProbeFrees(h: Hub, t: TaskId, ok: bool, m: Moment)
    requires t in h.tasks && h.tasks[t].HttpProbing? && KnownTask(h.store, TaskDevice(h, t), h.tasks[t])
    ensures Frees(h, AfterProbe(h, t, ok, m), t)
  {
  }
}
