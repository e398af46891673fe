/** When a session's status goes back: a session that a lease failed in the queue is still in its
    holder's hands, and the holder starts it all the same as soon as it gets that far. */
module HubBackwards {
  import opened Wrappers
  import opened HubTypes
  import opened HubStore
  import opened HubStoreLaws
  import opened HubScheduler
  import opened HubMachine
  import opened HubSteps
  import opened HubSlots
  import opened HubSafety
  import opened HubLoad
  import opened HubSessions
  import opened HubSessionRuns

  // -- the guards -------------------------------------------------------------------------


  // The memory of the service's device is tracked, so that a start has to wait for room.
  predicate MustWait(h: Hub, svc: Name) {
    && svc in h.store.services && h.store.services[svc].def.device in h.store.devices
    && h.store.services[svc].def.device in h.cfg.capacity
  }

  predicate HasRoom(h: Hub, d: Name, svc: Name) {
    svc in h.store.services && d in h.store.devices && (d in h.cfg.capacity ==> Available(h, d) >= h.store.services[svc].def.memory)
  }

  // A worker that comes to the start of svc gets past it, or is at its deadline at once.
  predicate StartGoesOn(h: Hub, svc: Name) {
    svc !in h.locks && (IsUp(h.store, svc) || !MustWait(h, svc) || (Patient(h, svc) && HasRoom(h, h.store.services[svc].def.device, svc)))
  }

  predicate StartTimesOut(h: Hub, svc: Name) {
    svc !in h.locks && !IsUp(h.store, svc) && MustWait(h, svc) && !Patient(h, svc)
  }

  predicate Patient(h: Hub, svc: Name)
    requires MustWait(h, svc)
  {
    h.store.devices[h.store.services[svc].def.device].def.schedulingTimeout > 0
  }

  // The acting worker starts its service, or goes on to the upstream call.
  predicate Restarts(h: Hub, e: Event, m: Moment) {
    match e
    case Dequeue(t) => HasWork(h, t) && StartGoesOn(h, h.queues[t.device][0].0)
    case Grant(t) => t in h.tasks && h.tasks[t].Locking? && StartGoesOn(h, h.tasks[t].ctx.svc)
    case Wake(t) =>
      t in h.tasks && h.tasks[t].Polling? && m.now < h.tasks[t].deadline && HasRoom(h, TaskDevice(h, t), h.tasks[t].ctx.svc)
    case ReclaimStopped(t, outcome) => outcome == Succeeds && t in h.tasks && h.tasks[t].Reclaiming? && StopSuffices(h, h.tasks[t])
    case _ => false
  }

  predicate StopSuffices(h: Hub, task: Task)
    requires task.Reclaiming?
  {
    && task.todo != [] && task.todo[0] in h.store.services && task.ctx.svc in h.store.services
    && task.projected + h.store.services[task.todo[0]].def.memory >= h.store.services[task.ctx.svc].def.memory
  }

  // The acting worker's start fails.
  predicate TimesOut(h: Hub, e: Event, m: Moment) {
    match e
    case Dequeue(t) => HasWork(h, t) && StartTimesOut(h, h.queues[t.device][0].0)
    case Grant(t) => t in h.tasks && h.tasks[t].Locking? && StartTimesOut(h, h.tasks[t].ctx.svc)
    case Wake(t) => t in h.tasks && h.tasks[t].Polling? && m.now >= h.tasks[t].deadline
    case ReclaimStopped(t, outcome) => outcome == RaisesOther && t in h.tasks && h.tasks[t].Reclaiming?
    case _ => false
  }

  // -- what the stretches do to such a session --------------------------------------------

  ghost predicate Has(r: Hub, sid: SessionId, status: SessionStatus) {
    sid in r.store.sessions && r.store.sessions[sid].status == status
  }

  // A step that restarts the session, fails it, or leaves it.
  ghost predicate Outcomes(r: Hub, sid: SessionId, was: SessionStatus, restarts: bool, timesOut: bool) {
    if restarts then Has(r, sid, SessionStarting) || Has(r, sid, SessionProcessing)
    else if timesOut then Has(r, sid, Failed)
    else Has(r, sid, was)
  }

  lemma LaunchStarts(h: Hub, t: TaskId, svc: Name, sid: SessionId)
    requires svc in h.store.services && sid in h.store.sessions
    ensures Has(Launch(h, t, Auto(svc, sid)), sid, SessionStarting)
  {
  }

  lemma GiveUpFails(h: Hub, t: TaskId, svc: Name, sid: SessionId, m: Moment)
    requires svc in h.store.services && sid in h.store.sessions
    ensures Has(GiveUp(h, t, Auto(svc, sid), m), sid, Failed)
  {
    GiveUpCarries(h, t, Auto(svc, sid), m);
  }

  lemma DispatchProcesses(h: Hub, t: TaskId, svc: Name, sid: SessionId, m: Moment)
    requires svc in h.store.services && sid in h.store.sessions && h.store.sessions[sid].status != Queued
    ensures Has(TryDispatch(h, t, svc, sid, m), sid, SessionProcessing)
  {
  }

  lemma PollOutcomes(h: Hub, t: TaskId, d: Name, svc: Name, sid: SessionId, deadline: Time, m: Moment)
    requires d in h.store.devices && svc in h.store.services && sid in h.store.sessions
    ensures Outcomes(Poll(h, t, d, Auto(svc, sid), deadline, m), sid, h.store.sessions[sid].status,
                     m.now < deadline && HasRoom(h, d, svc), m.now >= deadline)
  {
    var h1 := SetWaiting(h, d, svc, false);
    if m.now >= deadline {
      GiveUpFails(h1, t, svc, sid, m);
    } else if HasRoom(h, d, svc) {
      LaunchStarts(h1, t, svc, sid);
    } else {
      LookForRoomCarries(h, t, d, Auto(svc, sid), deadline, m);
    }
  }

  lemma WaitOutcomes(h: Hub, t: TaskId, d: Name, svc: Name, sid: SessionId, m: Moment)
    requires d in h.store.devices && svc in h.store.services && sid in h.store.sessions
    ensures Outcomes(WaitForMemory(h, t, d, Auto(svc, sid), m), sid, h.store.sessions[sid].status,
                     h.store.devices[d].def.schedulingTimeout > 0 && HasRoom(h, d, svc), h.store.devices[d].def.schedulingTimeout <= 0)
  {
    var h1 := SetWaiting(h, d, svc, true);
    PollOutcomes(h1, t, d, svc, sid, m.now + h.store.devices[d].def.schedulingTimeout * SECOND, m);
  }

  lemma ColdStartOutcomes(h: Hub, t: TaskId, svc: Name, sid: SessionId, m: Moment)
    requires svc in h.store.services && sid in h.store.sessions && svc !in h.locks && !IsUp(h.store, svc)
    ensures Outcomes(ColdStart(h, t, Auto(svc, sid), m), sid, h.store.sessions[sid].status, StartGoesOn(h, svc), StartTimesOut(h, svc))
  {
    var d := h.store.services[svc].def.device;
    var h1 := h.(locks := h.locks[svc := t]);
    if MustWait(h, svc) {
      WaitOutcomes(h1, t, d, svc, sid, m);
      assert HasRoom(h1, d, svc) == HasRoom(h, d, svc);
    } else {
      LaunchStarts(h1, t, svc, sid);
    }
  }

  // From the start lock on; a session that is not QUEUED is not checked again.
  lemma EnsureStartedOutcomes(h: Hub, t: TaskId, svc: Name, sid: SessionId, m: Moment)
    requires svc in h.store.services && sid in h.store.sessions && svc !in h.locks && h.store.sessions[sid].status != Queued
    ensures Outcomes(EnsureStarted(h, t, Auto(svc, sid), m), sid, h.store.sessions[sid].status, StartGoesOn(h, svc), StartTimesOut(h, svc))
  {
    if IsUp(h.store, svc) {
      DispatchProcesses(h, t, svc, sid, m);
    } else {
      ColdStartOutcomes(h, t, svc, sid, m);
    }
  }

  lemma AcquireLockOutcomes(h: Hub, t: TaskId, svc: Name, sid: SessionId, m: Moment)
    requires svc in h.store.services && sid in h.store.sessions && h.store.sessions[sid].status != Queued
    ensures Outcomes(AcquireLock(h, t, Auto(svc, sid), m), sid, h.store.sessions[sid].status, StartGoesOn(h, svc), StartTimesOut(h, svc))
  {
    if svc !in h.locks {
      EnsureStartedOutcomes(h, t, svc, sid, m);
    }
  }

  // The queue size has no part in it.
  lemma TakenOffGuards(h: Hub, svc: Name, queues: map<Name, seq<(Name, SessionId)>>)
    requires svc in h.store.services
    ensures var h1 := h.(queues := queues, store := TakenOff(h.store, svc));
            StartGoesOn(h1, svc) == StartGoesOn(h, svc) && StartTimesOut(h1, svc) == StartTimesOut(h, svc)
  {
    var h1 := h.(queues := queues, store := TakenOff(h.store, svc));
    var d := h.store.services[svc].def.device;
    if d in h.store.devices {
      SameLoadSizes(h.cfg.names, h.store.devices[d].running, h.store.services, h1.store.services);
    }
  }

  lemma DequeueOutcomes(h: Hub, t: TaskId, sid: SessionId, m: Moment)
    requires HasWork(h, t) && h.queues[t.device][0].1 == sid && h.store.sessions[sid].status != Queued
    ensures Outcomes(Dequeued(h, t, m), sid, h.store.sessions[sid].status, Restarts(h, Dequeue(t), m), TimesOut(h, Dequeue(t), m))
  {
    var svc := h.queues[t.device][0].0;
    var rest := h.queues[t.device := h.queues[t.device][1..]];
    var h1 := h.(queues := rest, store := TakenOff(h.store, svc));
    TakenOffGuards(h, svc, rest);
    AcquireLockOutcomes(h1, t, svc, sid, m);
    assert AbortIfBusy(h1.store, h1.store.services[svc].def.device, sid, m.now) == (h1.store, false);
    assert Dequeued(h, t, m) == AcquireLock(h1, t, Auto(svc, sid), m);
  }

  lemma GrantOutcomes(h: Hub, t: TaskId, svc: Name, sid: SessionId, m: Moment)
    requires t in h.tasks && h.tasks[t] == Locking(Auto(svc, sid)) && KnownTask(h.store, TaskDevice(h, t), h.tasks[t])
    requires sid in h.store.sessions && h.store.sessions[sid].status != Queued
    ensures Outcomes(Granted(h, t, m), sid, h.store.sessions[sid].status, Restarts(h, Grant(t), m), TimesOut(h, Grant(t), m))
  {
    if svc !in h.locks {
      EnsureStartedOutcomes(h, t, svc, sid, m);
    }
  }

  lemma ReclaimOnOutcomes(h: Hub, t: TaskId, d: Name, svc: Name, sid: SessionId, deadline: Time, todo: seq<Name>, freed: int, names: seq<Name>)
    requires d in h.store.devices && todo != [] && svc in h.store.services && sid in h.store.sessions
    ensures Outcomes(ReclaimOn(h, t, d, Auto(svc, sid), deadline, todo, freed, names), sid, h.store.sessions[sid].status,
                     freed >= h.store.services[svc].def.memory, false)
  {
    var s1 := NotePending(h.store, d, sid, names);
    LaunchStarts(SetWaiting(h.(store := s1), d, svc, false), t, svc, sid);
  }

  lemma StoppedSame(s: Store, ctx: Context, n: Name, svc: Name, now: Time)
    requires n in s.services && svc in s.services
    ensures var r := StopForReclaim(s, ctx, n, now);
            && r.sessions == s.sessions && n in r.services && r.services[n].def == s.services[n].def
            && svc in r.services && r.services[svc].def == s.services[svc].def && r.devices.Keys == s.devices.Keys
  {
  }

  lemma ReclaimOutcomes(h: Hub, t: TaskId, svc: Name, sid: SessionId, outcome: Outcome, m: Moment)
    requires t in h.tasks && h.tasks[t].Reclaiming? && h.tasks[t].ctx == Auto(svc, sid) && KnownTask(h.store, TaskDevice(h, t), h.tasks[t])
    ensures Outcomes(Reclaimed(h, t, outcome, m), sid, h.store.sessions[sid].status,
                     Restarts(h, ReclaimStopped(t, outcome), m), TimesOut(h, ReclaimStopped(t, outcome), m))
  {
    var d := TaskDevice(h, t);
    var Reclaiming(ctx, deadline, todo, projected, reclaimed) := h.tasks[t];
    match outcome
    case RaisesRuntimeError =>
    case RaisesOther => GiveUpFails(SetWaiting(h, d, svc, false), t, svc, sid, m);
    case Succeeds =>
      assert todo[0] in todo;
      StoppedSame(h.store, ctx, todo[0], svc, m.now);
      var s1 := StopForReclaim(h.store, ctx, todo[0], m.now);
      ReclaimOnOutcomes(h.(store := s1), t, d, svc, sid, deadline, todo, projected + s1.services[todo[0]].def.memory, reclaimed + [todo[0]]);
  }

  // -- every step -------------------------------------------------------------------------

  // The holder of such a session is still before the start of its service.
  lemma StillQueued(h: Hub, e: Event, sid: SessionId)
    requires SessionsOk(h) && Source(h, e) == Some(sid) && sid in h.store.sessions && h.store.sessions[sid].status in {Failed, Expired}
    ensures PhaseIn(h, Origin(h, e, InTask(Actor(e)))) == Queued
  {
    assert Lively(h.store, sid, PhaseIn(h, Origin(h, e, InTask(Actor(e)))));
  }

  lemma WakeOutcomes(h: Hub, t: TaskId, sid: SessionId, m: Moment)
    requires Shape(h) && t in h.tasks && h.tasks[t].Polling? && Who(h.tasks[t].ctx) == Some(sid)
    ensures sid in h.store.sessions
    ensures Outcomes(Step(h, Wake(t), m), sid, h.store.sessions[sid].status, Restarts(h, Wake(t), m), TimesOut(h, Wake(t), m))
  {
    assert KnownTask(h.store, TaskDevice(h, t), h.tasks[t]);
    PollOutcomes(h, t, TaskDevice(h, t), h.tasks[t].ctx.svc, sid, h.tasks[t].deadline, m);
  }

  lemma ReclaimStoppedOutcomes(h: Hub, t: TaskId, outcome: Outcome, sid: SessionId, m: Moment)
    requires Shape(h) && t in h.tasks && h.tasks[t].Reclaiming? && Who(h.tasks[t].ctx) == Some(sid)
    ensures sid in h.store.sessions
    ensures Outcomes(Step(h, ReclaimStopped(t, outcome), m), sid, h.store.sessions[sid].status,
                     Restarts(h, ReclaimStopped(t, outcome), m), TimesOut(h, ReclaimStopped(t, outcome), m))
  {
    assert KnownTask(h.store, TaskDevice(h, t), h.tasks[t]);
    ReclaimOutcomes(h, t, h.tasks[t].ctx.svc, sid, outcome, m);
  }

  lemma LockOutcomes(h: Hub, e: Event, sid: SessionId, m: Moment)
    requires Shape(h) && (e.Dequeue? || e.Grant?) && Source(h, e) == Some(sid)
    requires sid in h.store.sessions && h.store.sessions[sid].status != Queued
    ensures Outcomes(Step(h, e, m), sid, h.store.sessions[sid].status, Restarts(h, e, m), TimesOut(h, e, m))
  {
    if e.Dequeue? {
      if HasWork(h, e.t) {
        DequeueOutcomes(h, e.t, sid, m);
      }
    } else if e.t in h.tasks && h.tasks[e.t].Locking? {
      GrantOutcomes(h, e.t, h.tasks[e.t].ctx.svc, sid, m);
    }
  }

  lemma CapacityOutcomes(h: Hub, e: Event, sid: SessionId, m: Moment)
    requires Shape(h) && (e.Wake? || e.ReclaimStopped?) && Source(h, e) == Some(sid) && sid in h.store.sessions
    ensures Outcomes(Step(h, e, m), sid, h.store.sessions[sid].status, Restarts(h, e, m), TimesOut(h, e, m))
  {
    if e.Wake? {
      if e.t in h.tasks && h.tasks[e.t].Polling? {
        WakeOutcomes(h, e.t, sid, m);
      }
    } else if e.t in h.tasks && h.tasks[e.t].Reclaiming? {
      ReclaimStoppedOutcomes(h, e.t, e.outcome, sid, m);
    }
  }

  // The other events of a worker find it elsewhere.
  lemma OtherEventsPass(h: Hub, e: Event, m: Moment)
    requires Shape(h) && Source(h, e).Some? && PhaseIn(h, Origin(h, e, InTask(Actor(e)))) == Queued
    requires e.Launched? || e.Answered? || e.OnceStopped? || e.Restored?
    ensures Step(h, e, m) == h
  {
  }

  lemma HttpEventsPass(h: Hub, e: Event, m: Moment)
    requires Shape(h) && Source(h, e).Some?
    requires e.HttpStart? || e.HttpStop? || e.HttpStopped? || e.HttpProbe? || e.HttpProbed?
    ensures Step(h, e, m) == h
  {
  }

  // What every step of the holder does to a session that has faded in its hands.
  lemma HolderOutcomes(h: Hub, e: Event, sid: SessionId, m: Moment)
    requires Invariant(h) && SessionsOk(h) && !e.Submit? && !IsRequest(e) && Source(h, e) == Some(sid)
    requires sid in h.store.sessions && h.store.sessions[sid].status in {Failed, Expired}
    ensures Outcomes(Step(h, e, m), sid, h.store.sessions[sid].status, Restarts(h, e, m), TimesOut(h, e, m))
  {
    StillQueued(h, e, sid);
    if e.Dequeue? || e.Grant? {
      LockOutcomes(h, e, sid, m);
    } else if e.Wake? || e.ReclaimStopped? {
      CapacityOutcomes(h, e, sid, m);
    } else if e.Launched? || e.Answered? || e.OnceStopped? || e.Restored? {
      OtherEventsPass(h, e, m);
    } else {
      HttpEventsPass(h, e, m);
    }
  }

  // The condition, before the step.
  predicate TakenBack(h: Hub, e: Event, m: Moment, sid: SessionId) {
    && Source(h, e) == Some(sid) && sid in h.store.sessions
    && ((h.store.sessions[sid].status in {Failed, Expired} && Restarts(h, e, m))
        || (h.store.sessions[sid].status == Expired && TimesOut(h, e, m)))
  }

  ghost predicate BackIff(h: Hub, e: Event, m: Moment, r: Hub, sid: SessionId) {
    && sid in h.store.sessions && sid in r.store.sessions
    && (!Forward(h.store.sessions[sid].status, r.store.sessions[sid].status) <==> TakenBack(h, e, m, sid))
  }

  lemma OutcomesDecide(h: Hub, e: Event, m: Moment, r: Hub, sid: SessionId)
    requires Source(h, e) == Some(sid) && sid in h.store.sessions && h.store.sessions[sid].status in {Failed, Expired}
    requires Outcomes(r, sid, h.store.sessions[sid].status, Restarts(h, e, m), TimesOut(h, e, m))
    ensures BackIff(h, e, m, r, sid)
  {
  }

  // The steps that take no session back.
  predicate Harmless(h: Hub, e: Event, sid: SessionId)
    requires sid in h.store.sessions
  {
    e.Submit? || IsRequest(e) || Source(h, e) != Some(sid) || h.store.sessions[sid].status !in {Failed, Expired}
  }

  lemma HarmlessNotTaken(h: Hub, e: Event, m: Moment, sid: SessionId)
    requires sid in h.store.sessions && Harmless(h, e, sid)
    ensures !TakenBack(h, e, m, sid)
  {
  }

  lemma FactsDecide(h: Hub, e: Event, r: Hub, sid: SessionId)
    requires SessionFacts(h, e, r) && SessionsOk(h) && sid in h.store.sessions && Harmless(h, e, sid)
    ensures sid in r.store.sessions && Forward(h.store.sessions[sid].status, r.store.sessions[sid].status)
  {
    if IsRequest(e) {
      RequestStatusForward(h, r, sid, e.CleanupTick? || e.LookAt?);
    } else if !e.Submit? {
      FactsForward(h, e, r, sid);
    }
  }

  /** On every device, single-slot or not, a step takes a session's status back exactly if the
      acting worker holds the session, or takes it off the queue, after it FAILED or EXPIRED there,
      and either gets past the start (the service is up or may be started now) or, for an EXPIRED
      session, fails the start at its deadline. */
  lemma StatusBackExactly(h: Hub, e: Event, m: Moment, sid: SessionId)
    requires Invariant(h) && SessionsOk(h) && sid in h.store.sessions
    ensures sid in Step(h, e, m).store.sessions
    ensures !Forward(h.store.sessions[sid].status, Step(h, e, m).store.sessions[sid].status) <==> TakenBack(h, e, m, sid)
  {
    if Harmless(h, e, sid) {
      StepSessionFacts(h, e, m);
      FactsDecide(h, e, Step(h, e, m), sid);
      HarmlessNotTaken(h, e, m, sid);
    } else {
      HolderOutcomes(h, e, sid, m);
      OutcomesDecide(h, e, m, Step(h, e, m), sid);
    }
  }
}
