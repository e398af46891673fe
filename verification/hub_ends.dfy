/** The end of a session, whichever way it comes: what becomes of its worker, of its service and of
    what was reclaimed for it, told by the records alone. */
module HubEnds {
  import opened Wrappers
  import opened HubTypes
  import opened HubStore
  import opened HubScheduler
  import opened HubMachine
  import opened HubSlots
  import opened HubBackwards
  import opened HubRestore
  import opened Seqs

  predicate HasLive(leases: map<LeaseId, Time>, now: Time) {
    exists l :: l in leases && leases[l] > now
  }

  // A QUEUED session finds no free slot among requests in flight and live reserved slots.
  predicate FindsBusy(s: Store, d: Name, sid: SessionId, now: Time) {
    && sid in s.sessions && s.sessions[sid].status == Queued && d in s.devices
    && s.devices[d].active + |set k | k in s.devices[d].slots && s.devices[d].slots[k] > now| >= s.devices[d].def.maxConcurrency
  }

  // Worker t ends session sid by this event: the answer is there, the start failed, or there was no
  // time to wait for it. Early exits of a busy device are not among these.
  predicate EndsSession(h: Hub, e: Event, m: Moment, t: TaskId, svc: Name, sid: SessionId) {
    match e
    case Answered(u, _, _) => u == t && t in h.tasks && h.tasks[t] == Forwarding(svc, sid)
    case Launched(u, ok) => u == t && !ok && t in h.tasks && h.tasks[t] == Launching(Auto(svc, sid))
    case Wake(u) => u == t && t in h.tasks && h.tasks[t].Polling? && h.tasks[t].ctx == Auto(svc, sid) && m.now >= h.tasks[t].deadline
    case ReclaimStopped(u, outcome) =>
      u == t && t in h.tasks && h.tasks[t].Reclaiming? && h.tasks[t].ctx == Auto(svc, sid) && outcome == RaisesOther
    case Grant(u) => u == t && t in h.tasks && h.tasks[t] == Locking(Auto(svc, sid)) && StartTimesOut(h, svc)
    case Dequeue(u) =>
      u == t && HasWork(h, t) && h.queues[t.device][0] == (svc, sid) && !FindsBusy(h.store, t.device, sid, m.now) && StartTimesOut(h, svc)
    case _ => false
  }

  predicate EndsWell(e: Event) {
    e.Answered? && e.ok
  }

  // -- what the end leaves ----------------------------------------------------------------

  ghost predicate SameRunning(s: Store, r: Store) {
    forall d :: d in s.devices ==> d in r.devices && r.devices[d].running == s.devices[d].running
  }

  // One request fewer; with none left the service is in error, held by leases, or idle.
  predicate Left(was: ServiceRuntime, rt: ServiceRuntime, ok: bool, now: Time) {
    && rt.def == was.def && rt.lastUsed == Some(now)
    && rt.inflight == (if was.inflight > 0 then was.inflight - 1 else was.inflight)
    && (rt.inflight == 0 ==>
          && rt.activeSession == None
          && rt.status == if HasLive(was.leases, now) && (ok || was.def.mode == Once) then External else if ok then Idle else HubTypes.Error)
  }

  ghost predicate OneFewer(s: Store, r: Store, d: Name) {
    d in s.devices ==>
      d in r.devices && r.devices[d].active == if s.devices[d].active > 0 then s.devices[d].active - 1 else s.devices[d].active
  }

  function Noted(s: Store, d: Name, sid: SessionId): seq<Name>
    requires d in s.devices
  {
    if sid in s.devices[d].pending then s.devices[d].pending[sid] else []
  }

  // The worker starts the first service of the list if it fits, else it is through.
  ghost predicate RestoresNext(r: Hub, t: TaskId, d: Name, todo: seq<Name>) {
    t in r.tasks && r.tasks[t] == if todo == [] || !HasRoom(r, d, todo[0]) then Waiting else Restoring(todo[0], todo[1..])
  }

  ghost predicate RestoreList(s: Store, d: Name, now: Time, names: seq<Name>, todo: seq<Name>)
    requires d in s.devices
  {
    && (NoDup(names) ==> NoDup(todo)) && InRestartOrder(s.services, todo)
    && forall n :: n in todo <==> n in names && Resumes(s, d, now, n)
  }

  // The note of the session is taken, and its services are about to be restarted in order.
  ghost predicate RestoreBegins(s: Store, r: Hub, t: TaskId, d: Name, sid: SessionId, now: Time) {
    if d !in s.devices then t in r.tasks && r.tasks[t] == Waiting
    else
      && d in r.store.devices && r.store.devices[d].pending == s.devices[d].pending - {sid}
      && exists todo :: RestoreList(r.store, d, now, Noted(s, d, sid), todo) && RestoresNext(r, t, d, todo)
  }

  ghost predicate GoesOn(h: Hub, r: Hub, t: TaskId, svc: Name, sid: SessionId, now: Time)
    requires svc in h.store.services
  {
    var was := h.store.services[svc];
    match was.def.mode
    case Always => t in r.tasks && r.tasks[t] == Waiting
    case Once =>
      if HasLive(was.leases, now) then RestoreBegins(h.store, r, t, was.def.device, sid, now)
      else t in r.tasks && r.tasks[t] == StoppingOnce(svc, sid)
  }

  ghost predicate Ended(h: Hub, r: Hub, t: TaskId, svc: Name, sid: SessionId, ok: bool, now: Time) {
    && svc in h.store.services && svc in r.store.services && sid in r.store.sessions
    && r.store.sessions[sid].status == (if ok then Finished else Failed) && r.store.sessions[sid].finishedAt == Some(now)
    && Left(h.store.services[svc], r.store.services[svc], ok, now)
    && SameRunning(h.store, r.store) && OneFewer(h.store, r.store, h.store.services[svc].def.device)
    && GoesOn(h, r, t, svc, sid, now)
  }

  // -- the stretches ----------------------------------------------------------------------

  lemma LiveIs(leases: map<LeaseId, Time>, now: Time)
    ensures HasLive(leases, now) <==> LiveLeases(leases, now) != map[]
    ensures HasLive(LiveLeases(leases, now), now) <==> HasLive(leases, now)
  {
    if HasLive(leases, now) {
      var l :| l in leases && leases[l] > now;
      assert l in LiveLeases(leases, now);
    } else if LiveLeases(leases, now) != map[] {
      var l :| l in LiveLeases(leases, now);
    }
  }

  lemma RestoreNextIs(h: Hub, t: TaskId, d: Name, todo: seq<Name>)
    requires t.Worker? && d in h.store.devices && forall n :: n in todo ==> n in h.store.services
    ensures RestoresNext(RestoreNext(h, t, d, todo), t, d, todo) && RestoreNext(h, t, d, todo).store == h.store
  {
    if todo != [] {
      assert todo[0] in todo;
    }
  }

  lemma BeginRestoreBegins(h: Hub, t: TaskId, d: Name, sid: SessionId, m: Moment)
    requires t.Worker?
    ensures RestoreBegins(h.store, BeginRestore(h, t, d, sid, m), t, d, sid, m.now)
    ensures BeginRestore(h, t, d, sid, m).store == if d in h.store.devices then Forgotten(h.store, d, sid) else h.store
  {
    if d in h.store.devices {
      var h1, names := h.(store := Forgotten(h.store, d, sid)), PendingOf(h.store, d, sid);
      var todo := RestoreOrder(h1.store, d, m.now, names);
      RestoreOrderSorted(h1.store, d, m.now, names);
      RestoreNextIs(h1, t, d, todo);
      assert RestoreList(h1.store, d, m.now, Noted(h.store, d, sid), todo);
    }
  }

  // The devices run what they ran and remember what they did; their counts are another matter.
  ghost predicate DevicesStay(s: Store, r: Store) {
    && (forall e :: e in s.devices <==> e in r.devices)
    && forall e :: e in s.devices ==> r.devices[e].running == s.devices[e].running && r.devices[e].pending == s.devices[e].pending
  }

  ghost predicate CountsStay(s: Store, r: Store) {
    forall e :: e in s.devices && e in r.devices ==> r.devices[e].active == s.devices[e].active
  }

  predicate Settles(was: ServiceRuntime, rt: ServiceRuntime, failed: bool, now: Time) {
    && rt.def == was.def && rt.lastUsed == was.lastUsed && rt.inflight == was.inflight
    && (HasLive(rt.leases, now) <==> HasLive(was.leases, now))
    && (rt.inflight == 0 ==>
          && rt.activeSession == None
          && rt.status == if failed then HubTypes.Error else if HasLive(was.leases, now) then External else Idle)
  }

  lemma CountersDownDoes(s: Store, d: Name, svc: Name)
    requires svc in s.services
    ensures var r := CountersDown(s, d, svc);
            && r.sessions == s.sessions && DevicesStay(s, r) && OneFewer(s, r, d) && svc in r.services
            && r.services[svc] == s.services[svc].(inflight := r.services[svc].inflight)
            && r.services[svc].inflight == if s.services[svc].inflight > 0 then s.services[svc].inflight - 1 else s.services[svc].inflight
  {
  }

  lemma SweepDoes(s: Store, svc: Name, now: Time)
    requires svc in s.services
    ensures var r := Sweep(s, {svc}, now);
            && r.sessions == s.sessions && DevicesStay(s, r) && CountsStay(s, r) && svc in r.services
            && r.services[svc] == SweptService(s.services[svc], now)
  {
  }

  lemma PutServiceDoes(s: Store, svc: Name, rt: ServiceRuntime)
    ensures var r := PutService(s, svc, rt);
            && r.sessions == s.sessions && r.devices == s.devices && svc in r.services && r.services[svc] == rt
  {
  }

  lemma SweptIs(rt: ServiceRuntime, now: Time)
    ensures SweptService(rt, now).(status := rt.status) == rt.(leases := LiveLeases(rt.leases, now))
    ensures HasLive(SweptService(rt, now).leases, now) <==> HasLive(rt.leases, now)
    ensures rt.status in {HubTypes.Error, Idle, External} ==>
              SweptService(rt, now).status == if HasLive(rt.leases, now) then External else if rt.status == External then Idle else rt.status
  {
    LiveIs(rt.leases, now);
  }

  lemma SettledDoes(s: Store, svc: Name, sid: SessionId, now: Time)
    requires svc in s.services && sid in s.sessions
    ensures var r := Settled(s, svc, sid, now);
            && r.sessions == s.sessions && DevicesStay(s, r) && CountsStay(s, r) && svc in r.services
            && Settles(s.services[svc], r.services[svc], s.sessions[sid].status == Failed, now)
  {
    var rt := s.services[svc];
    if rt.inflight == 0 && s.sessions[sid].status != Failed {
      var s1 := PutService(s, svc, rt.(activeSession := None));
      PutServiceDoes(s, svc, rt.(activeSession := None));
      SweepDoes(s1, svc, now);
      SweptIs(rt.(activeSession := None), now);
      LiveIs(rt.leases, now);
      var s2 := Sweep(s1, {svc}, now);
      PutServiceDoes(s2, svc, s2.services[svc].(status := if HasExternalActivity(s, svc, now) then External else Idle));
    }
  }

  // The stretch behind the finally clause.
  ghost predicate Gone(h: Hub, r: Hub, t: TaskId, svc: Name, sid: SessionId, now: Time) {
    && svc in h.store.services && svc in r.store.services && r.store.sessions == h.store.sessions
    && GoesOn(h, r, t, svc, sid, now) && SameRunning(h.store, r.store) && CountsStay(h.store, r.store)
    && r.store.services[svc] == if h.store.services[svc].def.mode == Always then h.store.services[svc]
                                else SweptService(h.store.services[svc], now)
  }

  lemma ForgottenDoes(s: Store, d: Name, sid: SessionId)
    requires d in s.devices
    ensures SameRunning(s, Forgotten(s, d, sid)) && CountsStay(s, Forgotten(s, d, sid))
    ensures Forgotten(s, d, sid).sessions == s.sessions && Forgotten(s, d, sid).services == s.services
  {
  }

  lemma RestoreBeginsAlike(s: Store, s1: Store, r: Hub, t: TaskId, d: Name, sid: SessionId, now: Time)
    requires DevicesStay(s, s1) && RestoreBegins(s1, r, t, d, sid, now)
    ensures RestoreBegins(s, r, t, d, sid, now)
  {
  }

  lemma OnceGoesOn(h: Hub, t: TaskId, svc: Name, sid: SessionId, m: Moment)
    requires t.Worker? && svc in h.store.services && h.store.services[svc].def.mode == Once && HasLive(h.store.services[svc].leases, m.now)
    ensures Gone(h, AfterSession(h, t, h.store.services[svc].def.device, svc, sid, m), t, svc, sid, m.now)
  {
    var d := h.store.services[svc].def.device;
    var h1 := h.(store := Sweep(h.store, {svc}, m.now));
    LiveIs(h.store.services[svc].leases, m.now);
    SweepDoes(h.store, svc, m.now);
    BeginRestoreBegins(h1, t, d, sid, m);
    RestoreBeginsAlike(h.store, h1.store, BeginRestore(h1, t, d, sid, m), t, d, sid, m.now);
    if d in h1.store.devices {
      ForgottenDoes(h1.store, d, sid);
    }
  }

  lemma AfterSessionGoesOn(h: Hub, t: TaskId, svc: Name, sid: SessionId, m: Moment)
    requires t.Worker? && svc in h.store.services
    ensures Gone(h, AfterSession(h, t, h.store.services[svc].def.device, svc, sid, m), t, svc, sid, m.now)
  {
    if h.store.services[svc].def.mode == Once {
      if HasLive(h.store.services[svc].leases, m.now) {
        OnceGoesOn(h, t, svc, sid, m);
      } else {
        LiveIs(h.store.services[svc].leases, m.now);
        SweepDoes(h.store, svc, m.now);
      }
    }
  }

  lemma GoesOnAlike(h: Hub, h1: Hub, r: Hub, t: TaskId, svc: Name, sid: SessionId, now: Time)
    requires svc in h.store.services && svc in h1.store.services && h1.store.services[svc].def == h.store.services[svc].def
    requires HasLive(h1.store.services[svc].leases, now) <==> HasLive(h.store.services[svc].leases, now)
    requires DevicesStay(h.store, h1.store) && GoesOn(h1, r, t, svc, sid, now)
    ensures GoesOn(h, r, t, svc, sid, now)
  {
    if h.store.services[svc].def.mode == Once && HasLive(h.store.services[svc].leases, now) {
      RestoreBeginsAlike(h.store, h1.store, r, t, h.store.services[svc].def.device, sid, now);
    }
  }

  lemma LeftIs(was: ServiceRuntime, a: ServiceRuntime, b: ServiceRuntime, rt: ServiceRuntime, ok: bool, now: Time)
    requires a == was.(inflight := a.inflight) && a.inflight == (if was.inflight > 0 then was.inflight - 1 else was.inflight)
    requires was.lastUsed == Some(now) && Settles(a, b, !ok, now)
    requires rt == if b.def.mode == Always then b else SweptService(b, now)
    ensures Left(was, rt, ok, now)
  {
    SweptIs(b, now);
  }

  // A stretch that begins where a session is over.
  lemma FinishEnds(h: Hub, t: TaskId, svc: Name, sid: SessionId, ok: bool, m: Moment)
    requires t.Worker? && svc in h.store.services && sid in h.store.sessions && h.store.services[svc].lastUsed == Some(m.now)
    requires h.store.sessions[sid].status == (if ok then Finished else Failed) && h.store.sessions[sid].finishedAt == Some(m.now)
    ensures Ended(h, FinishSession(h, t, svc, sid, m), t, svc, sid, ok, m.now)
  {
    var d := h.store.services[svc].def.device;
    var s1 := CountersDown(h.store, d, svc);
    CountersDownDoes(h.store, d, svc);
    var s2 := Settled(s1, svc, sid, m.now);
    SettledDoes(s1, svc, sid, m.now);
    var h2 := h.(store := s2);
    AfterSessionGoesOn(h2, t, svc, sid, m);
    var r := AfterSession(h2, t, d, svc, sid, m);
    GoesOnAlike(h, h2, r, t, svc, sid, m.now);
    LeftIs(h.store.services[svc], s1.services[svc], s2.services[svc], r.store.services[svc], ok, m.now);
    assert FinishSession(h, t, svc, sid, m) == r;
  }

  // -- every way to the end ---------------------------------------------------------------

  // What the end looks at is the same in both stores.
  ghost predicate Alike(s: Store, r: Store, svc: Name) {
    && svc in s.services && svc in r.services && r.services[svc].def == s.services[svc].def
    && r.services[svc].inflight == s.services[svc].inflight && r.services[svc].leases == s.services[svc].leases
    && DevicesStay(s, r) && CountsStay(s, r)
  }

  lemma EndedAlike(h: Hub, h1: Hub, r: Hub, t: TaskId, svc: Name, sid: SessionId, ok: bool, now: Time)
    requires Alike(h.store, h1.store, svc) && Ended(h1, r, t, svc, sid, ok, now)
    ensures Ended(h, r, t, svc, sid, ok, now)
  {
    GoesOnAlike(h, h1, r, t, svc, sid, now);
  }

  lemma BrokenAlike(s: Store, svc: Name, sid: SessionId, now: Time)
    requires svc in s.services && sid in s.sessions
    ensures var r := Broken(s, svc, sid, now);
            && Alike(s, r, svc) && sid in r.sessions && r.services[svc].lastUsed == Some(now)
            && r.sessions[sid].status == Failed && r.sessions[sid].finishedAt == Some(now)
  {
  }

  lemma CompletedAlike(s: Store, svc: Name, sid: SessionId, payload: Payload, now: Time)
    requires svc in s.services && sid in s.sessions
    ensures var r := Completed(s, svc, sid, payload, now);
            && Alike(s, r, svc) && sid in r.sessions && r.services[svc].lastUsed == Some(now)
            && r.sessions[sid].status == Finished && r.sessions[sid].finishedAt == Some(now)
  {
  }

  lemma FailEnds(h: Hub, t: TaskId, svc: Name, sid: SessionId, m: Moment)
    requires t.Worker? && svc in h.store.services && sid in h.store.sessions
    ensures Ended(h, FailSession(h, t, svc, sid, m), t, svc, sid, false, m.now)
  {
    var h1 := h.(store := Broken(h.store, svc, sid, m.now));
    BrokenAlike(h.store, svc, sid, m.now);
    FinishEnds(h1, t, svc, sid, false, m);
    EndedAlike(h, h1, FailSession(h, t, svc, sid, m), t, svc, sid, false, m.now);
  }

  lemma AnswerEnds(h: Hub, t: TaskId, svc: Name, sid: SessionId, ok: bool, payload: Payload, m: Moment)
    requires t.Worker? && t in h.tasks && h.tasks[t] == Forwarding(svc, sid) && KnownTask(h.store, TaskDevice(h, t), h.tasks[t])
    ensures Ended(h, AfterAnswer(h, t, ok, payload, m), t, svc, sid, ok, m.now)
  {
    if ok {
      var h1 := h.(store := Completed(h.store, svc, sid, payload, m.now));
      CompletedAlike(h.store, svc, sid, payload, m.now);
      FinishEnds(h1, t, svc, sid, true, m);
      EndedAlike(h, h1, FinishSession(h1, t, svc, sid, m), t, svc, sid, true, m.now);
    } else {
      FailEnds(h, t, svc, sid, m);
    }
  }

  lemma GiveUpEnds(h: Hub, t: TaskId, svc: Name, sid: SessionId, m: Moment)
    requires t.Worker? && svc in h.store.services && sid in h.store.sessions
    ensures Ended(h, GiveUp(h, t, Auto(svc, sid), m), t, svc, sid, false, m.now)
  {
    FailEnds(Unlock(h, svc), t, svc, sid, m);
    EndedAlike(h, Unlock(h, svc), GiveUp(h, t, Auto(svc, sid), m), t, svc, sid, false, m.now);
  }

  // The capacity loop is given up.
  lemma WaitEnds(h: Hub, t: TaskId, d: Name, svc: Name, sid: SessionId, m: Moment)
    requires t.Worker? && d in h.store.devices && svc in h.store.services && sid in h.store.sessions
    ensures Ended(h, GiveUp(SetWaiting(h, d, svc, false), t, Auto(svc, sid), m), t, svc, sid, false, m.now)
  {
    var h1 := SetWaiting(h, d, svc, false);
    GiveUpEnds(h1, t, svc, sid, m);
    EndedAlike(h, h1, GiveUp(h1, t, Auto(svc, sid), m), t, svc, sid, false, m.now);
  }

  lemma StartEnds(h: Hub, t: TaskId, svc: Name, sid: SessionId, m: Moment)
    requires t.Worker? && svc in h.store.services && sid in h.store.sessions && StartTimesOut(h, svc)
    ensures Ended(h, AcquireLock(h, t, Auto(svc, sid), m), t, svc, sid, false, m.now)
    ensures EnsureStarted(h, t, Auto(svc, sid), m) == AcquireLock(h, t, Auto(svc, sid), m)
  {
    var d := h.store.services[svc].def.device;
    var h1 := SetWaiting(h.(locks := h.locks[svc := t]), d, svc, true);
    WaitEnds(h1, t, d, svc, sid, m);
    var r := GiveUp(SetWaiting(h1, d, svc, false), t, Auto(svc, sid), m);
    assert AcquireLock(h, t, Auto(svc, sid), m) == WaitForMemory(h.(locks := h.locks[svc := t]), t, d, Auto(svc, sid), m) == r;
    EndedAlike(h, h1, r, t, svc, sid, false, m.now);
  }

  lemma BusyIs(s: Store, d: Name, sid: SessionId, now: Time)
    requires sid in s.sessions
    ensures AbortIfBusy(s, d, sid, now).1 <==> FindsBusy(s, d, sid, now)
    ensures var r := AbortIfBusy(s, d, sid, now).0;
            r.services == s.services && DevicesStay(s, r) && CountsStay(s, r) && r.devices.Keys == s.devices.Keys && sid in r.sessions
  {
    if d in s.devices {
      assert LiveSlots(s.devices[d].slots, now).Keys == set k | k in s.devices[d].slots && s.devices[d].slots[k] > now;
    }
  }

  lemma DequeueEnds(h: Hub, t: TaskId, svc: Name, sid: SessionId, m: Moment)
    requires t.Worker? && HasWork(h, t) && h.queues[t.device][0] == (svc, sid) && h.store.services[svc].def.device == t.device
    requires !FindsBusy(h.store, t.device, sid, m.now) && StartTimesOut(h, svc)
    ensures Ended(h, Dequeued(h, t, m), t, svc, sid, false, m.now)
  {
    var rest := h.queues[t.device := h.queues[t.device][1..]];
    var s1 := TakenOff(h.store, svc);
    BusyIs(s1, t.device, sid, m.now);
    var s2 := AbortIfBusy(s1, t.device, sid, m.now).0;
    var h2 := h.(queues := rest, store := s2);
    StartEnds(h2, t, svc, sid, m);
    assert Dequeued(h, t, m) == AcquireLock(h2, t, Auto(svc, sid), m);
    EndedAlike(h, h2, AcquireLock(h2, t, Auto(svc, sid), m), t, svc, sid, false, m.now);
  }

  lemma CapacityEnds(h: Hub, e: Event, m: Moment, t: TaskId, svc: Name, sid: SessionId)
    requires Shape(h) && t.Worker? && EndsSession(h, e, m, t, svc, sid) && (e.Wake? || e.ReclaimStopped?)
    ensures Ended(h, Step(h, e, m), t, svc, sid, false, m.now)
  {
    assert KnownTask(h.store, TaskDevice(h, t), h.tasks[t]);
    WaitEnds(h, t, t.device, svc, sid, m);
  }

  lemma LockEnds(h: Hub, e: Event, m: Moment, t: TaskId, svc: Name, sid: SessionId)
    requires Shape(h) && t.Worker? && EndsSession(h, e, m, t, svc, sid) && (e.Dequeue? || e.Grant?)
    ensures Ended(h, Step(h, e, m), t, svc, sid, false, m.now)
  {
    if e.Dequeue? {
      DequeueEnds(h, t, svc, sid, m);
    } else {
      assert KnownTask(h.store, TaskDevice(h, t), h.tasks[t]);
      StartEnds(h, t, svc, sid, m);
    }
  }

  lemma UpstreamEnds(h: Hub, e: Event, m: Moment, t: TaskId, svc: Name, sid: SessionId)
    requires Shape(h) && t.Worker? && EndsSession(h, e, m, t, svc, sid) && (e.Answered? || e.Launched?)
    ensures Ended(h, Step(h, e, m), t, svc, sid, EndsWell(e), m.now)
  {
    assert KnownTask(h.store, TaskDevice(h, t), h.tasks[t]);
    if e.Answered? {
      AnswerEnds(h, t, svc, sid, e.ok, e.payload, m);
    } else {
      GiveUpEnds(h, t, svc, sid, m);
    }
  }

  /** However a session ends, early exits of a busy device apart: its status, its service and the
      counts are settled, nothing has stopped yet, and the worker goes back to its queue if the
      service is to stay up; a ONCE service is about to be stopped if no lease is live, and if one
      is, keeps running while the services reclaimed for the session are restored. */
  lemma SessionEnds(h: Hub, e: Event, m: Moment, t: TaskId, svc: Name, sid: SessionId)
    requires Shape(h) && t.Worker? && EndsSession(h, e, m, t, svc, sid)
    ensures Ended(h, Step(h, e, m), t, svc, sid, EndsWell(e), m.now)
  {
    if e.Answered? || e.Launched? {
      UpstreamEnds(h, e, m, t, svc, sid);
    } else if e.Wake? || e.ReclaimStopped? {
      CapacityEnds(h, e, m, t, svc, sid);
    } else {
      LockEnds(h, e, m, t, svc, sid);
    }
  }

  // -- and what follows it ----------------------------------------------------------------

  ghost predicate OthersStay(s: Store, r: Store, svc: Name) {
    forall n :: n in s.services && n != svc ==> n in r.services && r.services[n] == s.services[n]
  }

  // The service is down, on its own device, and no other is.
  ghost predicate WentDown(s: Store, r: Store, svc: Name, now: Time) {
    && svc in s.services && svc in r.services && OthersStay(s, r, svc)
    && r.services[svc] == s.services[svc].(status := Stopped, activeSession := None, inflight := 0, lastStopped := Some(now),
                                           reclaimedFor := r.services[svc].reclaimedFor)
    && forall d :: d in s.devices ==>
         d in r.devices && r.devices[d].running == s.devices[d].running - if d == s.services[svc].def.device then {svc} else {}
  }

  // The service is up, on its own device, and no other is.
  ghost predicate WentUp(s: Store, r: Store, svc: Name, now: Time) {
    && svc in s.services && svc in r.services && OthersStay(s, r, svc)
    && r.services[svc] == s.services[svc].(status := Idle, lastStarted := Some(now))
    && forall d :: d in s.devices ==>
         d in r.devices && r.devices[d].running == s.devices[d].running + if d == s.services[svc].def.device then {svc} else {}
  }

  lemma MarkedStopped(s: Store, svc: Name, now: Time)
    requires svc in s.services
    ensures WentDown(s, MarkStopped(s, svc, now), svc, now)
    ensures forall d :: d in s.devices <==> d in MarkStopped(s, svc, now).devices
    ensures forall d :: d in s.devices ==> MarkStopped(s, svc, now).devices[d].pending == s.devices[d].pending
  {
  }

  /** The stop of a ONCE service: it is down, and the restore begins; if the stop fails, the worker
      is dead. */
  lemma OnceStopRestores(h: Hub, t: TaskId, svc: Name, sid: SessionId, m: Moment)
    requires Shape(h) && t.Worker? && t in h.tasks && h.tasks[t] == StoppingOnce(svc, sid)
    ensures var r := Step(h, OnceStopped(t, true), m);
            WentDown(h.store, r.store, svc, m.now) && RestoreBegins(h.store, r, t, t.device, sid, m.now)
    ensures Step(h, OnceStopped(t, false), m) == h.(tasks := h.tasks[t := Dead])
  {
    assert KnownTask(h.store, TaskDevice(h, t), h.tasks[t]);
    var h1 := h.(store := MarkStopped(h.store, svc, m.now));
    MarkedStopped(h.store, svc, m.now);
    BeginRestoreBegins(h1, t, t.device, sid, m);
    if t.device in h1.store.devices {
      ForgottenDoes(h1.store, t.device, sid);
    }
  }

  /** One restart of a restore: the service is up, and the next one follows if it fits; the first
      that does not fit ends the restore, and a failing start kills the worker. */
  lemma RestartGoesOn(h: Hub, t: TaskId, svc: Name, rest: seq<Name>, m: Moment)
    requires Shape(h) && t.Worker? && t in h.tasks && h.tasks[t] == Restoring(svc, rest) && t.device in h.store.devices
    ensures var r := Step(h, Restored(t, true), m);
            WentUp(h.store, r.store, svc, m.now) && RestoresNext(r, t, t.device, rest)
    ensures Step(h, Restored(t, false), m) == h.(tasks := h.tasks[t := Dead])
  {
    assert KnownTask(h.store, TaskDevice(h, t), h.tasks[t]);
    var h1 := h.(store := MarkStarted(h.store, svc, m.now));
    RestoreNextIs(h1, t, t.device, rest);
  }
}
