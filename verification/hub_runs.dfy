/** Every stretch of task code: it keeps the store's invariants, touches no other task, and
    makes a device busier only by a dispatch. */
module HubRuns {
  import opened Wrappers
  import opened HubTypes
  import opened HubStore
  import opened HubStoreLaws
  import opened HubScheduler
  import opened HubMoves
  import opened HubMachine
  import opened Seqs

  ghost predicate OthersSame(tasks: map<TaskId, Task>, r: map<TaskId, Task>, t: TaskId) {
    forall u :: u != t ==> ((u in tasks) == (u in r)) && (u in tasks ==> r[u] == tasks[u])
  }

  ghost predicate TaskOk(s: Store, d: Name, tasks: map<TaskId, Task>, t: TaskId) {
    t in tasks ==> KnownTask(s, d, tasks[t]) && RightTask(t, tasks[t]) && !tasks[t].Forwarding?
  }

  // Task t of device d ran from h to r, within the scope, without dispatching a request.
  ghost predicate Runs(h: Hub, r: Hub, t: TaskId, d: Name, sc: Scope) {
    && r.cfg == h.cfg && r.queues == h.queues
    && Moves(h.store, r.store, sc)
    && OthersSame(h.tasks, r.tasks, t)
    && TaskOk(r.store, d, r.tasks, t)
  }

  // Who runs for the context: a worker, on its own device, for a session; else a handler.
  ghost predicate OnBehalf(t: TaskId, d: Name, ctx: Context, sc: Scope) {
    (ctx.Auto? <==> t.Worker?) && (t.Worker? ==> sc.own == Some(d))
  }

  // The store is about to be what the later functions start from.
  lemma RunsAfterStore(h: Hub, s: Store, r: Hub, t: TaskId, d: Name, sc: Scope)
    requires Moves(h.store, s, sc) && Runs(h.(store := s), r, t, d, sc)
    ensures Runs(h, r, t, d, sc)
  {
    MovesChain(h.store, s, r.store, sc);
  }

  lemma DoneRuns(h: Hub, t: TaskId, d: Name, sc: Scope)
    ensures Runs(h, Done(h, t), t, d, sc)
  {
    SameMoves(h.store, sc);
  }

  lemma SetTaskRuns(h: Hub, t: TaskId, d: Name, task: Task, sc: Scope)
    requires KnownTask(h.store, d, task) && RightTask(t, task) && !task.Forwarding?
    ensures Runs(h, SetTask(h, t, task), t, d, sc)
  {
    SameMoves(h.store, sc);
  }

  lemma RestoreNextRuns(h: Hub, t: TaskId, d: Name, todo: seq<Name>, sc: Scope)
    requires t.Worker? && d in h.store.devices && KnownNames(h.store, d, todo)
    ensures Runs(h, RestoreNext(h, t, d, todo), t, d, sc)
  {
    if todo == [] || !Fits(h, d, Memory(h.store.services, todo[0])) {
      DoneRuns(h, t, d, sc);
    } else {
      assert todo[0] in todo;
      assert forall n :: n in todo[1..] ==> n in todo;
      SetTaskRuns(h, t, d, Restoring(todo[0], todo[1..]), sc);
    }
  }

  // Restore candidates are services of the device, when the reclaimed ones were.
  lemma RestoreOrderKnown(s: Store, d: Name, now: Time, reclaimed: seq<Name>)
    requires d in s.devices && KnownNames(s, d, reclaimed)
    ensures KnownNames(s, d, RestoreOrder(s, d, now, reclaimed))
  {
    FilterElements(n => Restorable(s, d, now, n), reclaimed);
    SortElements((a, b) => RestoredBefore(s.services, a, b), Filter(n => Restorable(s, d, now, n), reclaimed));
  }

  // The reclaim notes of a device name only services of that device.
  ghost predicate PendingKnown(s: Store, d: Name) {
    d in s.devices ==> forall sid :: sid in s.devices[d].pending ==> Belong(s.services, d, s.devices[d].pending[sid])
  }

  lemma RestoreFromRuns(h: Hub, t: TaskId, d: Name, reclaimed: seq<Name>, m: Moment, sc: Scope)
    requires t.Worker? && d in h.store.devices && Belong(h.store.services, d, reclaimed)
    ensures Runs(h, RestoreNext(h, t, d, RestoreOrder(h.store, d, m.now, reclaimed)), t, d, sc)
  {
    RestoreOrderKnown(h.store, d, m.now, reclaimed);
    RestoreNextRuns(h, t, d, RestoreOrder(h.store, d, m.now, reclaimed), sc);
  }

  lemma ForgottenMoves(s: Store, d: Name, sid: SessionId, sc: Scope)
    requires d in s.devices && PendingKnown(s, d)
    ensures Moves(s, Forgotten(s, d, sid), sc)
    ensures Belong(s.services, d, PendingOf(s, d, sid)) && Forgotten(s, d, sid).services == s.services
  {
    RetouchMoves(s, d, s.devices[d].(pending := s.devices[d].pending - {sid}), sc);
  }

  lemma BeginRestoreRuns(h: Hub, t: TaskId, d: Name, sid: SessionId, m: Moment, sc: Scope)
    requires t.Worker? && PendingKnown(h.store, d)
    ensures Runs(h, BeginRestore(h, t, d, sid, m), t, d, sc)
  {
    if d !in h.store.devices {
      DoneRuns(h, t, d, sc);
    } else {
      var h1 := h.(store := Forgotten(h.store, d, sid));
      ForgottenMoves(h.store, d, sid, sc);
      RestoreFromRuns(h1, t, d, PendingOf(h.store, d, sid), m, sc);
      RunsAfterStore(h, h1.store, BeginRestore(h, t, d, sid, m), t, d, sc);
    }
  }

  lemma PendingStays(s: Store, r: Store, d: Name, sc: Scope)
    requires PendingKnown(s, d) && SameServices(s.services, r.services) && DevicesMove(s.services, s.devices, r.devices, sc)
    ensures PendingKnown(r, d)
  {
    if d in s.devices {
      assert DeviceMoves(s.services, d, s.devices[d], r.devices[d], sc);
      forall sid | sid in r.devices[d].pending
        ensures Belong(r.services, d, r.devices[d].pending[sid])
      {
        if sid in s.devices[d].pending {
          assert Belong(s.services, d, s.devices[d].pending[sid]);
        }
      }
    }
  }

  lemma AfterSessionRuns(h: Hub, t: TaskId, d: Name, svc: Name, sid: SessionId, m: Moment, sc: Scope)
    requires PendingKnown(h.store, d) && KnownContext(h.store, d, Auto(svc, sid)) && OnBehalf(t, d, Auto(svc, sid), sc)
    ensures Runs(h, AfterSession(h, t, d, svc, sid, m), t, d, sc)
  {
    if h.store.services[svc].def.mode != Once {
      DoneRuns(h, t, d, sc);
    } else {
      var s1 := Sweep(h.store, {svc}, m.now);
      var h1 := h.(store := s1);
      SweepMoves(h.store, {svc}, m.now, sc);
      if HasExternalActivity(h.store, svc, m.now) {
        PendingStays(h.store, s1, d, sc);
        BeginRestoreRuns(h1, t, d, sid, m, sc);
        RunsAfterStore(h, s1, BeginRestore(h1, t, d, sid, m), t, d, sc);
      } else {
        SetTaskRuns(h1, t, d, StoppingOnce(svc, sid), sc);
        RunsAfterStore(h, s1, SetTask(h1, t, StoppingOnce(svc, sid)), t, d, sc);
      }
    }
  }

  // A session's end also takes its request off the device's count.
  ghost predicate Unloaded(h: Hub, r: Hub, d: Name) {
    d in h.store.devices ==> d in r.store.devices && r.store.devices[d].active <= Less1(h.store.devices[d].active)
  }

  lemma UnloadedThen(h: Hub, s: Store, r: Hub, t: TaskId, d: Name, sc: Scope)
    requires d in h.store.devices ==> d in s.devices && s.devices[d].active == Less1(h.store.devices[d].active)
    requires Runs(h.(store := s), r, t, d, sc) && h.store.devices.Keys == s.devices.Keys
    ensures Unloaded(h, r, d)
  {
    if d in h.store.devices {
      assert DeviceMoves(s.services, d, s.devices[d], r.store.devices[d], sc);
    }
  }

  lemma FinishSessionRuns(h: Hub, t: TaskId, d: Name, svc: Name, sid: SessionId, m: Moment, sc: Scope)
    requires PendingKnown(h.store, d) && KnownContext(h.store, d, Auto(svc, sid)) && OnBehalf(t, d, Auto(svc, sid), sc)
    ensures Runs(h, FinishSession(h, t, svc, sid, m), t, d, sc)
    ensures Unloaded(h, FinishSession(h, t, svc, sid, m), d)
  {
    var s1 := Finally(h.store, d, svc, sid, m.now);
    var h1 := h.(store := s1);
    FinallyMoves(h.store, d, svc, sid, m.now, sc);
    PendingStays(h.store, s1, d, sc);
    AfterSessionRuns(h1, t, d, svc, sid, m, sc);
    RunsAfterStore(h, s1, AfterSession(h1, t, d, svc, sid, m), t, d, sc);
    UnloadedThen(h, s1, AfterSession(h1, t, d, svc, sid, m), t, d, sc);
  }

  lemma FailSessionRuns(h: Hub, t: TaskId, d: Name, svc: Name, sid: SessionId, m: Moment, sc: Scope)
    requires PendingKnown(h.store, d) && KnownContext(h.store, d, Auto(svc, sid)) && OnBehalf(t, d, Auto(svc, sid), sc)
    ensures Runs(h, FailSession(h, t, svc, sid, m), t, d, sc)
    ensures Unloaded(h, FailSession(h, t, svc, sid, m), d)
  {
    var s1 := Broken(h.store, svc, sid, m.now);
    var h1 := h.(store := s1);
    BrokenMoves(h.store, svc, sid, m.now, sc);
    PendingStays(h.store, s1, d, sc);
    FinishSessionRuns(h1, t, d, svc, sid, m, sc);
    RunsAfterStore(h, s1, FinishSession(h1, t, svc, sid, m), t, d, sc);
  }

  lemma TurnAwayRuns(h: Hub, t: TaskId, d: Name, svc: Name, sid: SessionId, m: Moment, sc: Scope)
    requires KnownContext(h.store, d, Auto(svc, sid)) && OnBehalf(t, d, Auto(svc, sid), sc)
    ensures Runs(h, TurnAway(h, t, svc, sid, m), t, d, sc)
  {
    var s1 := Finally(h.store, d, svc, sid, m.now);
    FinallyMoves(h.store, d, svc, sid, m.now, sc);
    DoneRuns(h.(store := s1), t, d, sc);
    RunsAfterStore(h, s1, Done(h.(store := s1), t), t, d, sc);
  }

  lemma LaunchRuns(h: Hub, t: TaskId, d: Name, ctx: Context, sc: Scope)
    requires KnownContext(h.store, d, ctx) && OnBehalf(t, d, ctx, sc)
    ensures Runs(h, Launch(h, t, ctx), t, d, sc)
  {
    var rt := h.store.services[ctx.svc].(status := Starting);
    var s1 := PutService(h.store, ctx.svc, rt);
    PutServiceMoves(h.store, ctx.svc, rt, sc);
    var s2 := if ctx.Auto? then PutSession(s1, ctx.sid, s1.sessions[ctx.sid].(status := SessionStarting)) else s1;
    if ctx.Auto? {
      PutSessionMoves(s1, ctx.sid, s1.sessions[ctx.sid].(status := SessionStarting), sc);
      MovesChain(h.store, s1, s2, sc);
    }
    SetTaskRuns(h.(store := s2), t, d, Launching(ctx), sc);
    RunsAfterStore(h, s2, SetTask(h.(store := s2), t, Launching(ctx)), t, d, sc);
  }

  lemma WithWaitingMoves(s: Store, d: Name, svc: Name, waits: bool, sc: Scope)
    requires d in s.devices
    ensures Moves(s, WithWaiting(s, d, svc, waits), sc)
  {
    RetouchMoves(s, d, s.devices[d].(waiting := if waits then s.devices[d].waiting + {svc} else s.devices[d].waiting - {svc}), sc);
  }

  lemma WithWaitingSame(s: Store, d: Name, svc: Name, waits: bool)
    requires d in s.devices
    ensures var r := WithWaiting(s, d, svc, waits);
            && r.services == s.services && r.sessions == s.sessions && d in r.devices
            && (PendingKnown(s, d) ==> PendingKnown(r, d))
            && (RunningKnown(s.devices, s.services) ==> RunningKnown(r.devices, r.services))
  {
  }

  lemma AdmitRuns(h: Hub, t: TaskId, d: Name, ctx: Context, sc: Scope)
    requires d in h.store.devices && KnownContext(h.store, d, ctx) && OnBehalf(t, d, ctx, sc)
    ensures Runs(h, Admit(h, t, d, ctx), t, d, sc)
  {
    var h1 := SetWaiting(h, d, ctx.svc, false);
    WithWaitingMoves(h.store, d, ctx.svc, false, sc);
    WithWaitingSame(h.store, d, ctx.svc, false);
    LaunchRuns(h1, t, d, ctx, sc);
    RunsAfterStore(h, h1.store, Launch(h1, t, ctx), t, d, sc);
  }

  lemma GiveUpRuns(h: Hub, t: TaskId, d: Name, ctx: Context, m: Moment, sc: Scope)
    requires PendingKnown(h.store, d) && KnownContext(h.store, d, ctx) && OnBehalf(t, d, ctx, sc)
    ensures Runs(h, GiveUp(h, t, ctx, m), t, d, sc)
  {
    var h1 := Unlock(h, ctx.svc);
    match ctx
    case Auto(svc, sid) => FailSessionRuns(h1, t, d, svc, sid, m, sc);
    case Explicit(_) => DoneRuns(h1, t, d, sc);
  }

  lemma CandidatesKnown(s: Store, d: Name, target: Name, order: seq<Name>)
    requires d in s.devices && RunningKnown(s.devices, s.services)
    ensures KnownNames(s, d, Candidates(s, d, target, order))
    ensures forall n :: n in Candidates(s, d, target, order) <==> n in order && Eligible(s, d, target, n)
  {
    FilterElements(n => Eligible(s, d, target, n), order);
    SortElements((a, b) => ReclaimedBefore(s.services, a, b), Filter(n => Eligible(s, d, target, n), order));
  }

  lemma LookForRoomRuns(h: Hub, t: TaskId, d: Name, ctx: Context, deadline: Time, m: Moment, sc: Scope)
    requires RunningKnown(h.store.devices, h.store.services)
    requires d in h.store.devices && d in h.cfg.capacity && KnownContext(h.store, d, ctx) && OnBehalf(t, d, ctx, sc)
    ensures Runs(h, LookForRoom(h, t, d, ctx, deadline, m), t, d, sc)
  {
    var probed := Probed(h.store, d, ctx.svc);
    var swept := Sweep(h.store, probed, m.now);
    var h1 := h.(store := swept);
    SweepMoves(h.store, probed, m.now, sc);
    SweepRunning(h.store, probed, m.now);
    var todo := Candidates(swept, d, ctx.svc, m.order);
    CandidatesKnown(swept, d, ctx.svc, m.order);
    var task := if todo == [] then Polling(ctx, deadline) else Reclaiming(ctx, deadline, todo, Available(h, d), []);
    SetTaskRuns(h1, t, d, task, sc);
    RunsAfterStore(h, swept, SetTask(h1, t, task), t, d, sc);
  }

  lemma SweepRunning(s: Store, names: set<Name>, now: Time)
    requires RunningKnown(s.devices, s.services)
    ensures RunningKnown(Sweep(s, names, now).devices, Sweep(s, names, now).services)
  {
  }

  lemma TimedOutRuns(h: Hub, t: TaskId, d: Name, ctx: Context, m: Moment, sc: Scope)
    requires PendingKnown(h.store, d) && d in h.store.devices && KnownContext(h.store, d, ctx) && OnBehalf(t, d, ctx, sc)
    ensures Runs(h, GiveUp(SetWaiting(h, d, ctx.svc, false), t, ctx, m), t, d, sc)
  {
    var h1 := SetWaiting(h, d, ctx.svc, false);
    WithWaitingMoves(h.store, d, ctx.svc, false, sc);
    WithWaitingSame(h.store, d, ctx.svc, false);
    GiveUpRuns(h1, t, d, ctx, m, sc);
    RunsAfterStore(h, h1.store, GiveUp(h1, t, ctx, m), t, d, sc);
  }

  lemma PollRuns(h: Hub, t: TaskId, d: Name, ctx: Context, deadline: Time, m: Moment, sc: Scope)
    requires RunningKnown(h.store.devices, h.store.services)
    requires PendingKnown(h.store, d) && d in h.store.devices && KnownContext(h.store, d, ctx) && OnBehalf(t, d, ctx, sc)
    ensures Runs(h, Poll(h, t, d, ctx, deadline, m), t, d, sc)
  {
    if m.now >= deadline {
      TimedOutRuns(h, t, d, ctx, m, sc);
    } else if d !in h.cfg.capacity || Available(h, d) >= h.store.services[ctx.svc].def.memory {
      AdmitRuns(h, t, d, ctx, sc);
    } else {
      LookForRoomRuns(h, t, d, ctx, deadline, m, sc);
    }
  }

  // -- the rest of the reclaim loop and the ends of stops and restores --------------------

  lemma StopForReclaimMoves(s: Store, d: Name, ctx: Context, n: Name, now: Time, sc: Scope)
    requires n in s.services
    ensures Moves(s, StopForReclaim(s, ctx, n, now), sc)
    ensures StopForReclaim(s, ctx, n, now).sessions == s.sessions
  {
    var s1 := MarkStopped(s, n, now);
    MarkStoppedMoves(s, n, now, sc);
    if ctx.Auto? {
      var rt := s1.services[n].(reclaimedFor := s1.services[n].reclaimedFor + {ctx.sid});
      PutServiceMoves(s1, n, rt, sc);
      MovesChain(s, s1, PutService(s1, n, rt), sc);
    }
  }

  lemma NotePendingMoves(s: Store, d: Name, sid: SessionId, reclaimed: seq<Name>, sc: Scope)
    requires d in s.devices && Belong(s.services, d, reclaimed)
    ensures Moves(s, NotePending(s, d, sid, reclaimed), sc)
  {
    RetouchMoves(s, d, s.devices[d].(pending := s.devices[d].pending[sid := reclaimed]), sc);
  }

  lemma ReclaimAdmitRuns(h: Hub, t: TaskId, d: Name, ctx: Context, names: seq<Name>, sc: Scope)
    requires d in h.store.devices && KnownContext(h.store, d, ctx) && OnBehalf(t, d, ctx, sc) && Belong(h.store.services, d, names)
    ensures var s1 := if ctx.Auto? then NotePending(h.store, d, ctx.sid, names) else h.store;
            Runs(h, Admit(h.(store := s1), t, d, ctx), t, d, sc)
  {
    var s1 := if ctx.Auto? then NotePending(h.store, d, ctx.sid, names) else h.store;
    if ctx.Auto? {
      NotePendingMoves(h.store, d, ctx.sid, names, sc);
    } else {
      SameMoves(h.store, sc);
    }
    AdmitRuns(h.(store := s1), t, d, ctx, sc);
    RunsAfterStore(h, s1, Admit(h.(store := s1), t, d, ctx), t, d, sc);
  }

  lemma ReclaimNextRuns(h: Hub, t: TaskId, d: Name, ctx: Context, deadline: Time, todo: seq<Name>, freed: int, names: seq<Name>, sc: Scope)
    requires d in h.store.devices && KnownContext(h.store, d, ctx) && OnBehalf(t, d, ctx, sc)
    requires todo != [] && Belong(h.store.services, d, todo) && Belong(h.store.services, d, names)
    ensures var task := if |todo| == 1 then Polling(ctx, deadline) else Reclaiming(ctx, deadline, todo[1..], freed, names);
            Runs(h, SetTask(h, t, task), t, d, sc)
  {
    assert forall n :: n in todo[1..] ==> n in todo;
    SetTaskRuns(h, t, d, if |todo| == 1 then Polling(ctx, deadline) else Reclaiming(ctx, deadline, todo[1..], freed, names), sc);
  }

  lemma ReclaimOnRuns(h: Hub, t: TaskId, d: Name, ctx: Context, deadline: Time, todo: seq<Name>, freed: int, names: seq<Name>, sc: Scope)
    requires d in h.store.devices && KnownContext(h.store, d, ctx) && OnBehalf(t, d, ctx, sc)
    requires todo != [] && Belong(h.store.services, d, todo) && Belong(h.store.services, d, names)
    ensures Runs(h, ReclaimOn(h, t, d, ctx, deadline, todo, freed, names), t, d, sc)
  {
    if freed >= h.store.services[ctx.svc].def.memory {
      ReclaimAdmitRuns(h, t, d, ctx, names, sc);
    } else {
      ReclaimNextRuns(h, t, d, ctx, deadline, todo, freed, names, sc);
    }
  }

  lemma ReclaimMovesOn(h: Hub, t: TaskId, d: Name, task: Task, s1: Store, freed: int, m: Moment, sc: Scope)
    requires task.Reclaiming? && d in h.store.devices && KnownContext(h.store, d, task.ctx) && OnBehalf(t, d, task.ctx, sc)
    requires task.todo != [] && Belong(h.store.services, d, task.todo) && Belong(h.store.services, d, task.reclaimed)
    requires task.todo[0] in h.store.services && s1 == StopForReclaim(h.store, task.ctx, task.todo[0], m.now)
    ensures d in s1.devices && KnownContext(s1, d, task.ctx)
    ensures Runs(h, ReclaimOn(h.(store := s1), t, d, task.ctx, task.deadline, task.todo, freed, task.reclaimed + [task.todo[0]]), t, d, sc)
  {
    ReclaimSucceedsRuns(h, t, d, task.ctx, task.deadline, task.todo, freed, task.reclaimed, m, sc);
  }

  lemma ReclaimGoesOnRuns(h: Hub, t: TaskId, outcome: Outcome, m: Moment, sc: Scope)
    requires t in h.tasks && h.tasks[t].Reclaiming? && KnownTask(h.store, TaskDevice(h, t), h.tasks[t])
    requires OnBehalf(t, TaskDevice(h, t), h.tasks[t].ctx, sc) && outcome == Succeeds
    ensures Runs(h, Reclaimed(h, t, outcome, m), t, TaskDevice(h, t), sc)
  {
    var task := h.tasks[t];
    assert task.todo[0] in task.todo;
    StoppedIsThere(h.store, task.ctx, task.todo[0], m.now);
    var s1 := StopForReclaim(h.store, task.ctx, task.todo[0], m.now);
    ReclaimMovesOn(h, t, TaskDevice(h, t), task, s1, task.projected + s1.services[task.todo[0]].def.memory, m, sc);
  }

  lemma ReclaimedRuns(h: Hub, t: TaskId, outcome: Outcome, m: Moment, sc: Scope)
    requires t in h.tasks && h.tasks[t].Reclaiming? && KnownTask(h.store, TaskDevice(h, t), h.tasks[t]) && RightTask(t, h.tasks[t])
    requires PendingKnown(h.store, TaskDevice(h, t)) && (t.Worker? ==> sc.own == Some(TaskDevice(h, t)))
    ensures Runs(h, Reclaimed(h, t, outcome, m), t, TaskDevice(h, t), sc)
  {
    var d, ctx := TaskDevice(h, t), h.tasks[t].ctx;
    match outcome
    case RaisesRuntimeError => SetTaskRuns(h, t, d, Polling(ctx, h.tasks[t].deadline), sc);
    case RaisesOther => TimedOutRuns(h, t, d, ctx, m, sc);
    case Succeeds => ReclaimGoesOnRuns(h, t, outcome, m, sc);
  }

  lemma StoppedIsThere(s: Store, ctx: Context, n: Name, now: Time)
    requires n in s.services
    ensures n in StopForReclaim(s, ctx, n, now).services
  {
  }

  lemma KnownStays(s: Store, r: Store, d: Name, ctx: Context, names: seq<Name>, sc: Scope)
    requires Moves(s, r, sc) && KnownContext(s, d, ctx) && Belong(s.services, d, names)
    ensures KnownContext(r, d, ctx) && Belong(r.services, d, names)
    ensures d in s.devices <==> d in r.devices
  {
  }

  lemma ReclaimFromRuns(h: Hub, s: Store, t: TaskId, d: Name, ctx: Context, deadline: Time, todo: seq<Name>, freed: int, names: seq<Name>, sc: Scope)
    requires Moves(h.store, s, sc)
    requires d in s.devices && KnownContext(s, d, ctx) && OnBehalf(t, d, ctx, sc)
    requires todo != [] && Belong(s.services, d, todo) && Belong(s.services, d, names)
    ensures Runs(h, ReclaimOn(h.(store := s), t, d, ctx, deadline, todo, freed, names), t, d, sc)
  {
    ReclaimOnRuns(h.(store := s), t, d, ctx, deadline, todo, freed, names, sc);
    RunsAfterStore(h, s, ReclaimOn(h.(store := s), t, d, ctx, deadline, todo, freed, names), t, d, sc);
  }

  lemma ReclaimSucceedsRuns(h: Hub, t: TaskId, d: Name, ctx: Context, deadline: Time, todo: seq<Name>, freed: int, reclaimed: seq<Name>, m: Moment, sc: Scope)
    requires d in h.store.devices && KnownContext(h.store, d, ctx) && OnBehalf(t, d, ctx, sc)
    requires todo != [] && Belong(h.store.services, d, todo) && Belong(h.store.services, d, reclaimed)
    ensures todo[0] in h.store.services
    ensures var s1 := StopForReclaim(h.store, ctx, todo[0], m.now);
            d in s1.devices && KnownContext(s1, d, ctx) &&
            Runs(h, ReclaimOn(h.(store := s1), t, d, ctx, deadline, todo, freed, reclaimed + [todo[0]]), t, d, sc)
  {
    assert todo[0] in todo;
    var s1 := StopForReclaim(h.store, ctx, todo[0], m.now);
    StopForReclaimMoves(h.store, d, ctx, todo[0], m.now, sc);
    KnownStays(h.store, s1, d, ctx, todo, sc);
    KnownStays(h.store, s1, d, ctx, reclaimed + [todo[0]], sc);
    ReclaimFromRuns(h, s1, t, d, ctx, deadline, todo, freed, reclaimed + [todo[0]], sc);
  }

  lemma AfterOnceStopRuns(h: Hub, t: TaskId, ok: bool, m: Moment, sc: Scope)
    requires t in h.tasks && h.tasks[t].StoppingOnce? && KnownTask(h.store, TaskDevice(h, t), h.tasks[t]) && RightTask(t, h.tasks[t])
    requires PendingKnown(h.store, TaskDevice(h, t))
    ensures Runs(h, AfterOnceStop(h, t, ok, m), t, TaskDevice(h, t), sc)
  {
    var d := TaskDevice(h, t);
    var StoppingOnce(svc, sid) := h.tasks[t];
    if !ok {
      SetTaskRuns(h, t, d, Dead, sc);
    } else {
      var s1 := MarkStopped(h.store, svc, m.now);
      MarkStoppedMoves(h.store, svc, m.now, sc);
      PendingStays(h.store, s1, d, sc);
      BeginRestoreRuns(h.(store := s1), t, d, sid, m, sc);
      RunsAfterStore(h, s1, AfterOnceStop(h, t, ok, m), t, d, sc);
    }
  }

  lemma AfterRestoreRuns(h: Hub, t: TaskId, ok: bool, m: Moment, sc: Scope)
    requires t in h.tasks && h.tasks[t].Restoring? && KnownTask(h.store, TaskDevice(h, t), h.tasks[t]) && RightTask(t, h.tasks[t])
    requires sc.gain == Some(h.tasks[t].svc)
    ensures Runs(h, AfterRestore(h, t, ok, m), t, TaskDevice(h, t), sc)
  {
    var d := TaskDevice(h, t);
    var Restoring(svc, rest) := h.tasks[t];
    if !ok {
      SetTaskRuns(h, t, d, Dead, sc);
    } else {
      var s1 := MarkStarted(h.store, svc, m.now);
      MarkStartedMoves(h.store, svc, m.now, sc);
      if d in s1.devices {
        RestoreNextRuns(h.(store := s1), t, d, rest, sc);
      } else {
        DoneRuns(h.(store := s1), t, d, sc);
      }
      RunsAfterStore(h, s1, AfterRestore(h, t, ok, m), t, d, sc);
    }
  }

  // -- HTTP stop and health check ---------------------------------------------------------

  lemma StopRequestedRuns(h: Hub, t: TaskId, svc: Name, m: Moment, sc: Scope)
    requires t.Http? && t !in h.tasks && svc in h.store.services
    ensures Runs(h, StopRequested(h, t, svc, m), t, h.store.services[svc].def.device, sc)
  {
    var d := h.store.services[svc].def.device;
    var s1 := Sweep(h.store, {svc}, m.now);
    var rt := s1.services[svc];
    SweepMoves(h.store, {svc}, m.now, sc);
    if !(rt.leases != map[] || rt.activeSession.Some? || rt.status == Stopped) {
      var s2 := PutService(s1, svc, rt.(status := Stopping));
      PutServiceMoves(s1, svc, rt.(status := Stopping), sc);
      MovesChain(h.store, s1, s2, sc);
      SetTaskRuns(h.(store := s2), t, d, HttpStopping(svc), sc);
      RunsAfterStore(h, s2, StopRequested(h, t, svc, m), t, d, sc);
    }
  }

  lemma AfterProbeRuns(h: Hub, t: TaskId, ok: bool, m: Moment, sc: Scope)
    requires t in h.tasks && h.tasks[t].HttpProbing? && KnownTask(h.store, TaskDevice(h, t), h.tasks[t]) && RightTask(t, h.tasks[t])
    requires h.store.services[h.tasks[t].svc].status == Stopped && ok ==> sc.gain == Some(h.tasks[t].svc)
    ensures Runs(h, AfterProbe(h, t, ok, m), t, TaskDevice(h, t), sc)
  {
    var d := TaskDevice(h, t);
    var svc := h.tasks[t].svc;
    if !ok {
      DoneRuns(h, t, d, sc);
    } else if h.store.services[svc].status == Stopped {
      var s1 := MarkStarted(h.store, svc, m.now);
      MarkStartedMoves(h.store, svc, m.now, sc);
      DoneRuns(h.(store := s1), t, d, sc);
      RunsAfterStore(h, s1, AfterProbe(h, t, ok, m), t, d, sc);
    } else {
      var s1 := Sweep(h.store, {svc}, m.now);
      var s2 := PutService(s1, svc, s1.services[svc].(status := if s1.services[svc].leases != map[] then External else Idle));
      ProbedMoves(h.store, svc, m.now, sc);
      DoneRuns(h.(store := s2), t, d, sc);
      RunsAfterStore(h, s2, AfterProbe(h, t, ok, m), t, d, sc);
    }
  }

  lemma ProbedMoves(s: Store, svc: Name, now: Time, sc: Scope)
    requires svc in s.services
    ensures var s1 := Sweep(s, {svc}, now);
            Moves(s, PutService(s1, svc, s1.services[svc].(status := if s1.services[svc].leases != map[] then External else Idle)), sc)
  {
    var s1 := Sweep(s, {svc}, now);
    SweepMoves(s, {svc}, now, sc);
    var rt := s1.services[svc].(status := if s1.services[svc].leases != map[] then External else Idle);
    PutServiceMoves(s1, svc, rt, sc);
    MovesChain(s, s1, PutService(s1, svc, rt), sc);
  }

  lemma HttpStoppedRuns(h: Hub, t: TaskId, ok: bool, m: Moment, sc: Scope)
    requires t in h.tasks && h.tasks[t].HttpStopping? && KnownTask(h.store, TaskDevice(h, t), h.tasks[t]) && RightTask(t, h.tasks[t])
    ensures var s := if ok then MarkStopped(h.store, h.tasks[t].svc, m.now) else h.store;
            Runs(h, Done(h.(store := s), t), t, TaskDevice(h, t), sc)
  {
    var d := TaskDevice(h, t);
    var s := if ok then MarkStopped(h.store, h.tasks[t].svc, m.now) else h.store;
    if ok {
      MarkStoppedMoves(h.store, h.tasks[t].svc, m.now, sc);
    } else {
      SameMoves(h.store, sc);
    }
    DoneRuns(h.(store := s), t, d, sc);
    RunsAfterStore(h, s, Done(h.(store := s), t), t, d, sc);
  }
}
