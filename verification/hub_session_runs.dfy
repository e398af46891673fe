/** Sessions over whole runs: a result is there exactly while its session is FINISHED, no session
    is in two hands, and where no lease can fail queued sessions every session only moves on. */
module HubSessionRuns {
  import opened Wrappers
  import opened Behaviours
  import opened HubTypes
  import opened HubStore
  import opened HubStoreLaws
  import opened HubScheduler
  import opened HubMachine
  import opened HubMoves
  import opened HubRuns
  import opened HubDispatch
  import opened HubRequests
  import opened HubSteps
  import opened HubSlots
  import opened HubSafety
  import opened HubSessions

  ghost predicate ResultsMatch(s: Store) {
    forall sid :: sid in s.results <==> sid in s.sessions && s.sessions[sid].status == Finished
  }

  // On a single-slot device a lease fails the queued sessions, wherever they are held.
  predicate OnSingle(s: Store, svc: Name) {
    && svc in s.services && s.services[svc].def.device in s.devices
    && s.devices[s.services[svc].def.device].def.maxConcurrency == 1
  }

  // -- where sessions are held ------------------------------------------------------------

  datatype Place = InTask(t: TaskId) | InQueue(device: Name, index: nat)

  function HeldIn(h: Hub, p: Place): Option<SessionId> {
    match p
    case InTask(t) => Holding(TaskAt(h, t))
    case InQueue(d, i) => if d in h.queues && i < |h.queues[d]| then Some(h.queues[d][i].1) else None
  }

  function PhaseIn(h: Hub, p: Place): SessionStatus {
    match p
    case InTask(t) => Phase(TaskAt(h, t))
    case InQueue(_, _) => Queued
  }

  // A held session is in its phase, unless a lease failed it while it was queued, and a cleanup
  // may have expired it then.
  ghost predicate Lively(s: Store, sid: SessionId, phase: SessionStatus) {
    && sid in s.sessions && s.sessions[sid].status != Finished
    && (s.sessions[sid].status == phase
        || (OnSingle(s, s.sessions[sid].service) && phase == Queued && s.sessions[sid].status in {Failed, Expired}))
  }

  ghost predicate HeldLively(h: Hub) {
    forall p :: HeldIn(h, p).Some? ==> Lively(h.store, HeldIn(h, p).value, PhaseIn(h, p))
  }

  ghost predicate HeldOnce(h: Hub) {
    forall p, q :: p != q && HeldIn(h, p).Some? ==> HeldIn(h, p) != HeldIn(h, q)
  }

  ghost predicate SessionsOk(h: Hub) {
    ResultsMatch(h.store) && HeldLively(h) && HeldOnce(h)
  }

  // -- requests ---------------------------------------------------------------------------

  // What may happen to a session without its holder: a lease fails it, or a cleanup expires it.
  ghost predicate Fades(s: Store, a: SessionRecord, b: SessionRecord, cleans: bool) {
    && b.service == a.service
    && (b.status == a.status
        || (a.status == Queued && b.status == Failed && OnSingle(s, a.service))
        || (cleans && a.status in {Finished, Failed} && b.status == Expired))
  }

  ghost predicate Background(s: Store, r: Store, cleans: bool) {
    && (forall sid :: sid in s.sessions ==> sid in r.sessions && Fades(s, s.sessions[sid], r.sessions[sid], cleans))
    && (ResultsMatch(s) ==> ResultsMatch(r))
  }

  lemma SameBackground(s: Store, r: Store)
    requires SameSessions(s, r)
    ensures Background(s, r, false)
  {
  }

  lemma CleanupBackground(s: Store, now: Time)
    ensures Background(s, Cleanup(s, now), true)
  {
    var r := Cleanup(s, now);
    if ResultsMatch(s) {
      forall sid
        ensures sid in r.results <==> sid in r.sessions && r.sessions[sid].status == Finished
      {
        assert sid in s.results <==> sid in s.sessions && s.sessions[sid].status == Finished;
      }
    }
  }

  lemma FailQueuedBackground(s: Store, d: Name, now: Time)
    requires d in s.devices && s.devices[d].def.maxConcurrency == 1
    ensures Background(s, FailQueued(s, d, now), false)
  {
    var r := FailQueued(s, d, now);
    if ResultsMatch(s) {
      forall sid
        ensures sid in r.results <==> sid in r.sessions && r.sessions[sid].status == Finished
      {
        assert sid in s.results <==> sid in s.sessions && s.sessions[sid].status == Finished;
      }
    }
  }

  // Only sessions changed, and only as in the background; the definitions are the same.
  lemma BackgroundFrom(s: Store, m: Store, r: Store)
    requires SameSessions(s, m) && Background(m, r, false)
    requires forall n :: OnSingle(m, n) ==> OnSingle(s, n)
    ensures Background(s, r, false)
  {
  }

  lemma RecordBackground(s: Store, svc: Name, lease: LeaseId, expires: Time, now: Time)
    requires svc in s.services
    ensures Background(s, RecordLease(s, svc, lease, expires, now), false)
  {
    var rt := s.services[svc];
    var d := rt.def.device;
    var s1 := PutService(s, svc, rt.(leases := rt.leases[lease := expires]));
    if d in s1.devices && s1.devices[d].def.maxConcurrency == 1 && (svc, lease) in s1.devices[d].slots {
      FailQueuedBackground(s1, d, now);
      BackgroundFrom(s, s1, FailQueued(s1, d, now));
    }
  }

  lemma SlotsSame(s: Store, d: Name, slots: map<SlotKey, Time>)
    requires d in s.devices
    ensures SameSessions(s, PutSlots(s, d, slots)) && forall n :: OnSingle(PutSlots(s, d, slots), n) ==> OnSingle(s, n)
  {
  }

  lemma TakeBackground(s: Store, d: Name, slots: map<SlotKey, Time>, svc: Name, lease: LeaseId, expires: Time, now: Time)
    requires svc in s.services && d in s.devices
    ensures Background(s, RecordLease(PutSlots(s, d, slots), svc, lease, expires, now), false)
  {
    SlotsSame(s, d, slots);
    RecordBackground(PutSlots(s, d, slots), svc, lease, expires, now);
    BackgroundFrom(s, PutSlots(s, d, slots), RecordLease(PutSlots(s, d, slots), svc, lease, expires, now));
  }

  lemma TouchBackground(s: Store, svc: Name, lease: LeaseId, expires: Time, reserve: bool, t1: Time, t2: Time)
    requires svc in s.services
    ensures Background(s, Touch(s, svc, lease, expires, reserve, t1, t2).0, false)
  {
    var d := s.services[svc].def.device;
    if d !in s.devices {
      RecordBackground(s, svc, lease, expires, t2);
    } else {
      var live := LiveSlots(s.devices[d].slots, t1);
      TakeBackground(s, d, live, svc, lease, expires, t2);
      TakeBackground(s, d, live[(svc, lease) := expires], svc, lease, expires, t2);
      TakeBackground(s, d, LiveSlots(live, t2)[(svc, lease) := expires], svc, lease, expires, t2);
      TouchPaths(s, svc, lease, expires, reserve, t1, t2);
    }
  }

  // The four ways a touch of a tracked device can go.
  lemma TouchPaths(s: Store, svc: Name, lease: LeaseId, expires: Time, reserve: bool, t1: Time, t2: Time)
    requires svc in s.services && s.services[svc].def.device in s.devices
    ensures var d := s.services[svc].def.device;
            var live := LiveSlots(s.devices[d].slots, t1);
            var key := (svc, lease);
            Touch(s, svc, lease, expires, reserve, t1, t2).0 in {
              RecordLease(PutSlots(s, d, live), svc, lease, expires, t2),
              RecordLease(PutSlots(s, d, live[key := expires]), svc, lease, expires, t2),
              RecordLease(PutSlots(s, d, LiveSlots(live, t2)[key := expires]), svc, lease, expires, t2),
              PutSlots(s, d, LiveSlots(live, t2))}
  {
    var d := s.services[svc].def.device;
    var live := LiveSlots(s.devices[d].slots, t1);
    SlotsTwice(s, d, live, live[(svc, lease) := expires]);
    SlotsTwice(s, d, live, LiveSlots(live, t2));
    SlotsTwice(s, d, LiveSlots(live, t2), LiveSlots(live, t2)[(svc, lease) := expires]);
  }

  lemma SlotsTwice(s: Store, d: Name, a: map<SlotKey, Time>, b: map<SlotKey, Time>)
    requires d in s.devices
    ensures PutSlots(PutSlots(s, d, a), d, b) == PutSlots(s, d, b)
  {
    assert s.devices[d := s.devices[d].(slots := a)][d := s.devices[d].(slots := b)] == s.devices[d := s.devices[d].(slots := b)];
  }

  lemma ReservedBackground(s: Store, svc: Name, lease: LeaseId, expires: Time, now: Time)
    requires svc in s.services
    ensures Background(s, Reserved(s, svc, lease, expires, now), false)
  {
    var d := s.services[svc].def.device;
    if d in s.devices {
      var (s1, ready) := ReserveReady(s, d, svc, lease, now, now);
      SlotsTwice(s, d, LiveSlots(s.devices[d].slots, now), LiveSlots(LiveSlots(s.devices[d].slots, now), now));
      SlotsSame(s, d, LiveSlots(s.devices[d].slots, now));
      SlotsSame(s, d, LiveSlots(LiveSlots(s.devices[d].slots, now), now));
      TouchBackground(s1, svc, lease, expires, true, now, now);
      BackgroundFrom(s, s1, Touch(s1, svc, lease, expires, true, now, now).0);
    }
  }

  lemma SweptBackground(s: Store, m: Store, names: set<Name>, now: Time, cleans: bool)
    requires Background(s, m, cleans)
    ensures Background(s, Sweep(m, names, now), cleans)
  {
  }

  lemma LeaseSessions(h: Hub, e: Event, m: Moment)
    requires Shape(h) && (e.TouchLease? || e.ReserveLease? || e.ReleaseLease?) && e.svc in h.store.services
    ensures Background(h.store, Step(h, e, m).store, false)
  {
    match e
    case TouchLease(svc, lease, expires) =>
      TouchBackground(h.store, svc, lease, expires, false, m.now, m.now);
      SweptBackground(h.store, Touch(h.store, svc, lease, expires, false, m.now, m.now).0, {svc}, m.now, false);
    case ReserveLease(svc, lease, expires) => ReservedBackground(h.store, svc, lease, expires, m.now);
    case ReleaseLease(svc, lease) => SweptBackground(h.store, Release(h.store, svc, lease), {svc}, m.now, false);
  }

  lemma CleanupSessions(h: Hub, e: Event, m: Moment)
    requires Shape(h) && (e.CleanupTick? || e.LookAt?)
    ensures Background(h.store, Step(h, e, m).store, true)
  {
    CleanupBackground(h.store, m.now);
    if e.LookAt? {
      SweptBackground(h.store, Cleanup(h.store, m.now), {e.svc}, m.now, true);
    }
  }

  /** Requests that never wait leave every session alone, but for the two ways it can fade. */
  lemma RequestSessions(h: Hub, e: Event, m: Moment)
    requires Shape(h) && (e.TouchLease? || e.ReserveLease? || e.ReleaseLease? || e.CleanupTick? || e.LookAt?)
    ensures Background(h.store, Step(h, e, m).store, e.CleanupTick? || e.LookAt?)
    ensures Step(h, e, m).queues == h.queues && Step(h, e, m).tasks == h.tasks
  {
    if e.CleanupTick? || e.LookAt? {
      CleanupSessions(h, e, m);
    } else if e.svc in h.store.services {
      LeaseSessions(h, e, m);
    } else {
      SameBackground(h.store, h.store);
    }
  }

  // -- tasks ------------------------------------------------------------------------------

  // The place a place's session came from: a dequeuing worker takes the first of its queue.
  function Origin(h: Hub, e: Event, p: Place): Place {
    if e.Dequeue? && HasWork(h, e.t) then
      match p
      case InTask(t) => if t == e.t then InQueue(t.device, 0) else p
      case InQueue(d, i) => if d == e.t.device then InQueue(d, i + 1) else p
    else p
  }

  function Source(h: Hub, e: Event): Option<SessionId> {
    HeldIn(h, Origin(h, e, InTask(Actor(e))))
  }

  ghost predicate TaskCarries(h: Hub, e: Event, r: Hub) {
    && Carries(h, r, Actor(e), Source(h, e))
    && (PhaseIn(h, Origin(h, e, InTask(Actor(e)))) != Queued ==> PastStart(TaskAt(r, Actor(e))))
    && (PhaseIn(h, Origin(h, e, InTask(Actor(e)))) == SessionProcessing ==> Holding(TaskAt(r, Actor(e))) == None)
  }

  ghost predicate TaskCompletes(h: Hub, e: Event, r: Hub) {
    Source(h, e).Some? && Completes(h.store, r.store, Source(h, e).value, TaskAt(r, Actor(e)))
  }

  ghost predicate TaskSessions(h: Hub, e: Event, r: Hub) {
    r == h || TaskCarries(h, e, r) || TaskCompletes(h, e, r)
  }

  lemma DequeueSessions(h: Hub, t: TaskId, m: Moment)
    ensures TaskSessions(h, Dequeue(t), Dequeued(h, t, m))
  {
    if HasWork(h, t) {
      DequeuedCarries(h, t, m);
    }
  }

  lemma GrantSessions(h: Hub, t: TaskId, m: Moment)
    requires Shape(h) && t in h.tasks && h.tasks[t].Locking?
    ensures TaskSessions(h, Grant(t), Granted(h, t, m))
  {
    if h.tasks[t].ctx.svc !in h.locks {
      EnsureStartedCarries(h, t, h.tasks[t].ctx, m);
    }
  }

  lemma AnsweredSessions(h: Hub, t: TaskId, ok: bool, payload: Payload, m: Moment)
    requires Shape(h) && t in h.tasks && h.tasks[t].Forwarding?
    ensures TaskSessions(h, Answered(t, ok, payload), AfterAnswer(h, t, ok, payload, m))
  {
    AfterAnswerCarries(h, t, ok, payload, m);
  }

  lemma HttpStartSessions(h: Hub, t: TaskId, svc: Name, m: Moment)
    requires Shape(h)
    ensures TaskSessions(h, HttpStart(t, svc), Step(h, HttpStart(t, svc), m))
  {
    if t.Http? && t !in h.tasks && svc in h.store.services && h.store.services[svc].status in {Stopped, Error} {
      AcquireLockCarries(h, t, Explicit(svc), m);
    }
  }

  lemma HttpStopSessions(h: Hub, e: Event, m: Moment)
    requires Shape(h) && (e.HttpStop? || e.HttpStopped?)
    ensures TaskSessions(h, e, Step(h, e, m))
  {
    match e
    case HttpStop(t, svc) => if t.Http? && t !in h.tasks && svc in h.store.services { StopRequestedFrees(h, t, svc, m); }
    case HttpStopped(t, ok) => if t in h.tasks && h.tasks[t].HttpStopping? { HttpStoppedFrees(h, t, ok, m); }
  }

  lemma HttpProbeSessions(h: Hub, e: Event, m: Moment)
    requires Shape(h) && (e.HttpProbe? || e.HttpProbed?)
    ensures TaskSessions(h, e, Step(h, e, m))
  {
    match e
    case HttpProbe(t, svc) =>
    case HttpProbed(t, ok) => if t in h.tasks && h.tasks[t].HttpProbing? { AfterProbeFrees(h, t, ok, m); }
  }

  lemma WorkerSessions(h: Hub, e: Event, m: Moment)
    requires Shape(h)
    requires e.Dequeue? || e.Grant? || e.Wake? || e.ReclaimStopped? || e.Launched? || e.Answered? || e.OnceStopped? || e.Restored?
    ensures TaskSessions(h, e, Step(h, e, m))
  {
    match e
    case Dequeue(t) => DequeueSessions(h, t, m);
    case Grant(t) => if t in h.tasks && h.tasks[t].Locking? { GrantSessions(h, t, m); }
    case Wake(t) =>
      if t in h.tasks && h.tasks[t].Polling? { PollCarries(h, t, TaskDevice(h, t), h.tasks[t].ctx, h.tasks[t].deadline, m); }
    case ReclaimStopped(t, outcome) => if t in h.tasks && h.tasks[t].Reclaiming? { ReclaimedCarries(h, t, outcome, m); }
    case Launched(t, ok) => if t in h.tasks && h.tasks[t].Launching? { AfterLaunchCarries(h, t, ok, m); }
    case Answered(t, ok, payload) => if t in h.tasks && h.tasks[t].Forwarding? { AnsweredSessions(h, t, ok, payload, m); }
    case OnceStopped(t, ok) => if t in h.tasks && h.tasks[t].StoppingOnce? { AfterOnceStopFrees(h, t, ok, m); }
    case Restored(t, ok) => if t in h.tasks && h.tasks[t].Restoring? { AfterRestoreFrees(h, t, ok, m); }
  }

  // -- the invariant ----------------------------------------------------------------------

  lemma OriginOnce(h: Hub, e: Event, p: Place, q: Place)
    requires p != q
    ensures Origin(h, e, p) != Origin(h, e, q)
  {
  }

  // All places but the acting task's hold what they held, or what moved up the queue.
  lemma PlacesMoved(h: Hub, e: Event, r: Hub, p: Place)
    requires OthersSame(h.tasks, r.tasks, Actor(e)) && r.queues == Popped(h, e).queues && p != InTask(Actor(e))
    ensures HeldIn(r, p) == HeldIn(h, Origin(h, e, p)) && PhaseIn(r, p) == PhaseIn(h, Origin(h, e, p))
  {
    match p
    case InTask(t) => assert TaskAt(r, t) == TaskAt(h, t);
    case InQueue(d, i) =>
  }

  // The acting task gave its session up, or still holds it in the phase its task is in.
  ghost predicate ActorHolds(h: Hub, e: Event, r: Hub) {
    var p := InTask(Actor(e));
    HeldIn(r, p) == None || HeldIn(r, p) == Source(h, e)
  }

  lemma StaysOnce(h: Hub, e: Event, r: Hub)
    requires HeldOnce(h) && OthersSame(h.tasks, r.tasks, Actor(e)) && r.queues == Popped(h, e).queues && ActorHolds(h, e, r)
    ensures HeldOnce(r)
  {
    forall p, q | p != q && HeldIn(r, p).Some?
      ensures HeldIn(r, p) != HeldIn(r, q)
    {
      OriginOnce(h, e, p, q);
      HeldFrom(h, e, r, p);
      HeldFrom(h, e, r, q);
    }
  }

  lemma HeldFrom(h: Hub, e: Event, r: Hub, p: Place)
    requires OthersSame(h.tasks, r.tasks, Actor(e)) && r.queues == Popped(h, e).queues && ActorHolds(h, e, r)
    ensures HeldIn(r, p) == None || HeldIn(r, p) == HeldIn(h, Origin(h, e, p))
  {
    if p != InTask(Actor(e)) {
      PlacesMoved(h, e, r, p);
    }
  }

  lemma SingleStays(s: Store, r: Store, svc: Name)
    requires StoreStays(s, r)
    ensures OnSingle(r, svc) == OnSingle(s, svc)
  {
  }

  // Another task's session is not the one the acting task changed.
  lemma OthersLively(h: Hub, e: Event, r: Hub, p: Place)
    requires HeldLively(h) && HeldOnce(h) && StoreStays(h.store, r.store)
    requires OthersSame(h.tasks, r.tasks, Actor(e)) && r.queues == Popped(h, e).queues && p != InTask(Actor(e))
    requires match Source(h, e) case None => r.store.sessions == h.store.sessions case Some(sid) => OneSession(h.store, r.store, sid)
    requires HeldIn(r, p).Some?
    ensures Lively(r.store, HeldIn(r, p).value, PhaseIn(r, p))
  {
    PlacesMoved(h, e, r, p);
    OriginOnce(h, e, p, InTask(Actor(e)));
    var q := Origin(h, e, p);
    assert HeldIn(h, q) != Source(h, e);
    assert Lively(h.store, HeldIn(h, q).value, PhaseIn(h, q));
    SingleStays(h.store, r.store, h.store.sessions[HeldIn(h, q).value].service);
  }

  lemma ActorLively(h: Hub, e: Event, r: Hub)
    requires HeldLively(h) && StoreStays(h.store, r.store) && TaskCarries(h, e, r) && HeldIn(r, InTask(Actor(e))).Some?
    ensures Lively(r.store, HeldIn(r, InTask(Actor(e))).value, PhaseIn(r, InTask(Actor(e))))
  {
    var q := Origin(h, e, InTask(Actor(e)));
    assert Lively(h.store, HeldIn(h, q).value, PhaseIn(h, q));
    SingleStays(h.store, r.store, h.store.sessions[HeldIn(h, q).value].service);
  }

  lemma CarriesResults(h: Hub, e: Event, r: Hub)
    requires ResultsMatch(h.store) && HeldLively(h) && TaskCarries(h, e, r)
    ensures ResultsMatch(r.store)
  {
    var q := Origin(h, e, InTask(Actor(e)));
    if Source(h, e).Some? {
      assert Lively(h.store, HeldIn(h, q).value, PhaseIn(h, q));
      forall sid
        ensures sid in r.store.results <==> sid in r.store.sessions && r.store.sessions[sid].status == Finished
      {
        assert sid in h.store.results <==> sid in h.store.sessions && h.store.sessions[sid].status == Finished;
      }
    }
  }

  lemma CompletesResults(s: Store, r: Store, sid: SessionId, task: Option<Task>)
    requires ResultsMatch(s) && Completes(s, r, sid, task)
    ensures ResultsMatch(r)
  {
    forall x
      ensures x in r.results <==> x in r.sessions && r.sessions[x].status == Finished
    {
      assert x in s.results <==> x in s.sessions && s.sessions[x].status == Finished;
    }
  }

  lemma TaskKeepsSessions(h: Hub, e: Event, r: Hub)
    requires SessionsOk(h) && StoreStays(h.store, r.store) && (TaskCarries(h, e, r) || TaskCompletes(h, e, r))
    requires OthersSame(h.tasks, r.tasks, Actor(e)) && r.queues == Popped(h, e).queues
    ensures SessionsOk(r)
  {
    StaysOnce(h, e, r);
    forall p | HeldIn(r, p).Some?
      ensures Lively(r.store, HeldIn(r, p).value, PhaseIn(r, p))
    {
      if p == InTask(Actor(e)) {
        ActorLively(h, e, r);
      } else {
        OthersLively(h, e, r, p);
      }
    }
    if TaskCarries(h, e, r) {
      CarriesResults(h, e, r);
    } else {
      CompletesResults(h.store, r.store, Source(h, e).value, TaskAt(r, Actor(e)));
    }
  }

  lemma RequestKeepsSessions(h: Hub, r: Hub, cleans: bool)
    requires SessionsOk(h) && StoreStays(h.store, r.store) && Background(h.store, r.store, cleans)
    requires r.queues == h.queues && r.tasks == h.tasks
    ensures SessionsOk(r)
  {
    forall p
      ensures HeldIn(r, p) == HeldIn(h, p) && PhaseIn(r, p) == PhaseIn(h, p)
    {
    }
    forall p | HeldIn(r, p).Some?
      ensures Lively(r.store, HeldIn(r, p).value, PhaseIn(r, p))
    {
      var sid := HeldIn(h, p).value;
      assert Lively(h.store, sid, PhaseIn(h, p));
      SingleStays(h.store, r.store, h.store.sessions[sid].service);
      assert Fades(h.store, h.store.sessions[sid], r.store.sessions[sid], cleans);
    }
  }

  // -- submitting -------------------------------------------------------------------------

  // A fresh session joins its device's queue.
  ghost predicate Joins(h: Hub, r: Hub, d: Name, svc: Name, sid: SessionId) {
    && sid !in h.store.sessions && d in h.queues && r.tasks == h.tasks
    && r.queues == h.queues[d := h.queues[d] + [(svc, sid)]]
    && r.store.results == h.store.results && sid in r.store.sessions
    && r.store.sessions == h.store.sessions[sid := r.store.sessions[sid]] && r.store.sessions[sid].status == Queued
  }

  lemma SubmitSessions(h: Hub, svc: Name, sid: SessionId, m: Moment)
    ensures var r := Submitted(h, svc, sid, m);
            || (SameSessions(h.store, r.store) && r.queues == h.queues && r.tasks == h.tasks)
            || exists d :: Joins(h, r, d, svc, sid)
  {
    var r := Submitted(h, svc, sid, m);
    if svc in h.store.services && sid !in h.store.sessions && h.store.services[svc].def.device in h.queues {
      var d := h.store.services[svc].def.device;
      var (s1, ok) := CanAccept(h.store, d, m.now);
      assert SameSessions(h.store, s1);
      if ok {
        assert Joins(h, r, d, svc, sid);
      }
    }
  }

  lemma JoinedPlaces(h: Hub, r: Hub, d: Name, svc: Name, sid: SessionId, p: Place)
    requires Joins(h, r, d, svc, sid)
    ensures PhaseIn(r, p) == PhaseIn(h, p)
    ensures HeldIn(r, p) == if p == InQueue(d, |h.queues[d]|) then Some(sid) else HeldIn(h, p)
  {
    match p
    case InTask(t) => assert TaskAt(r, t) == TaskAt(h, t);
    case InQueue(_, _) =>
  }

  lemma JoinKeepsSessions(h: Hub, r: Hub, d: Name, svc: Name, sid: SessionId)
    requires SessionsOk(h) && StoreStays(h.store, r.store) && Joins(h, r, d, svc, sid)
    ensures SessionsOk(r)
  {
    forall p
      ensures HeldIn(r, p) == if p == InQueue(d, |h.queues[d]|) then Some(sid) else HeldIn(h, p)
    {
      JoinedPlaces(h, r, d, svc, sid, p);
    }
    forall p | HeldIn(r, p).Some?
      ensures Lively(r.store, HeldIn(r, p).value, PhaseIn(r, p))
      ensures p != InQueue(d, |h.queues[d]|) ==> HeldIn(r, p) != Some(sid)
    {
      JoinedPlaces(h, r, d, svc, sid, p);
      if p != InQueue(d, |h.queues[d]|) {
        assert Lively(h.store, HeldIn(h, p).value, PhaseIn(h, p));
        SingleStays(h.store, r.store, h.store.sessions[HeldIn(h, p).value].service);
      }
    }
    JoinResults(h.store, r.store, sid);
  }

  lemma JoinResults(s: Store, r: Store, sid: SessionId)
    requires ResultsMatch(s) && sid !in s.sessions && r.results == s.results && sid in r.sessions
    requires r.sessions == s.sessions[sid := r.sessions[sid]] && r.sessions[sid].status == Queued
    ensures ResultsMatch(r)
  {
    forall x
      ensures x in r.results <==> x in r.sessions && r.sessions[x].status == Finished
    {
      assert x in s.results <==> x in s.sessions && s.sessions[x].status == Finished;
    }
  }

  // -- every step -------------------------------------------------------------------------

  lemma RunKindPlaces(h: Hub, e: Event, r: Hub)
    requires OfRunKinds(h, e, r) && r != h && !e.Submit?
    ensures OthersSame(h.tasks, r.tasks, Actor(e)) && r.queues == Popped(h, e).queues
  {
    if TaskDispatches(h, e, r) {
      var mid: Devices :| Dispatches(Popped(h, e), r, Actor(e), ActorDevice(h, e), Dispatching(h, e), mid, EventScope(h, e));
    }
  }

  predicate IsRequest(e: Event) {
    e.TouchLease? || e.ReserveLease? || e.ReleaseLease? || e.CleanupTick? || e.LookAt?
  }

  // What a step of a task does to the sessions and to where they are held.
  lemma TaskStepSessions(h: Hub, e: Event, m: Moment)
    requires Sound(h) && !e.Submit? && !IsRequest(e)
    ensures var r := Step(h, e, m);
            r == h || (OthersSame(h.tasks, r.tasks, Actor(e)) && r.queues == Popped(h, e).queues
                       && (TaskCarries(h, e, r) || TaskCompletes(h, e, r)))
  {
    var r := Step(h, e, m);
    if e.HttpStart? || e.HttpStop? || e.HttpStopped? || e.HttpProbe? || e.HttpProbed? {
      if e.HttpStart? {
        HttpStartSessions(h, e.t, e.svc, m);
      } else if e.HttpStop? || e.HttpStopped? {
        HttpStopSessions(h, e, m);
      } else {
        HttpProbeSessions(h, e, m);
      }
      HttpKind(h, e, m);
    } else {
      WorkerSessions(h, e, m);
      WorkerKind(h, e, m);
    }
    if r != h {
      RunKindPlaces(h, e, r);
    }
  }

  lemma SubmitKeepsSessions(h: Hub, svc: Name, sid: SessionId, m: Moment)
    requires SessionsOk(h) && StoreStays(h.store, Submitted(h, svc, sid, m).store)
    ensures SessionsOk(Submitted(h, svc, sid, m))
  {
    var r := Submitted(h, svc, sid, m);
    SubmitSessions(h, svc, sid, m);
    if d :| Joins(h, r, d, svc, sid) {
      JoinKeepsSessions(h, r, d, svc, sid);
    } else {
      SameBackground(h.store, r.store);
      RequestKeepsSessions(h, r, false);
    }
  }

  /** Every step keeps: results match sessions, no session is in two hands, held sessions are in
      phase. */
  lemma StepKeepsSessions(h: Hub, e: Event, m: Moment)
    requires Invariant(h) && SessionsOk(h)
    ensures SessionsOk(Step(h, e, m))
  {
    var r := Step(h, e, m);
    StepKind(h, e, m);
    KindStays(h, e, r);
    if e.Submit? {
      SubmitKeepsSessions(h, e.svc, e.sid, m);
    } else if IsRequest(e) {
      RequestSessions(h, e, m);
      RequestKeepsSessions(h, r, e.CleanupTick? || e.LookAt?);
    } else {
      TaskStepSessions(h, e, m);
      if r != h {
        TaskKeepsSessions(h, e, r);
      }
    }
  }

  // -- over whole runs --------------------------------------------------------------------

  function Rank(status: SessionStatus): int {
    match status
    case Queued => 0
    case SessionStarting => 1
    case SessionProcessing => 2
    case Finished => 3
    case Failed => 3
    case Expired => 4
  }

  // The status stayed, or is a later one; of the two ways to end neither is later than the other.
  predicate Forward(a: SessionStatus, b: SessionStatus) {
    b == a || Rank(b) > Rank(a)
  }

  // A session that did not fade while it was held moves forward in its holder's hands.
  lemma TaskStatusForward(h: Hub, e: Event, r: Hub, sid: SessionId)
    requires HeldLively(h) && (TaskCarries(h, e, r) || TaskCompletes(h, e, r))
    requires sid in h.store.sessions && (Source(h, e) == Some(sid) ==> h.store.sessions[sid].status !in {Failed, Expired})
    ensures sid in r.store.sessions && Forward(h.store.sessions[sid].status, r.store.sessions[sid].status)
  {
    var q := Origin(h, e, InTask(Actor(e)));
    if Source(h, e) == Some(sid) {
      assert Lively(h.store, sid, PhaseIn(h, q));
    }
  }

  lemma SubmitLeavesSessions(h: Hub, svc: Name, sid: SessionId, m: Moment, x: SessionId)
    requires x in h.store.sessions
    ensures var r := Submitted(h, svc, sid, m); x in r.store.sessions && r.store.sessions[x] == h.store.sessions[x]
  {
    SubmitSessions(h, svc, sid, m);
  }

  lemma RequestStatusForward(h: Hub, r: Hub, sid: SessionId, cleans: bool)
    requires Background(h.store, r.store, cleans) && sid in h.store.sessions
    ensures sid in r.store.sessions && Forward(h.store.sessions[sid].status, r.store.sessions[sid].status)
  {
    assert Fades(h.store, h.store.sessions[sid], r.store.sessions[sid], cleans);
  }

  // What a step does to the sessions that were there, by what kind of step it is.
  ghost predicate SessionFacts(h: Hub, e: Event, r: Hub) {
    if e.Submit? then forall sid :: sid in h.store.sessions ==> sid in r.store.sessions && r.store.sessions[sid] == h.store.sessions[sid]
    else if IsRequest(e) then Background(h.store, r.store, e.CleanupTick? || e.LookAt?)
    else r == h || TaskCarries(h, e, r) || TaskCompletes(h, e, r)
  }

  lemma StepSessionFacts(h: Hub, e: Event, m: Moment)
    requires Invariant(h)
    ensures SessionFacts(h, e, Step(h, e, m))
  {
    if e.Submit? {
      forall sid | sid in h.store.sessions
        ensures sid in Step(h, e, m).store.sessions && Step(h, e, m).store.sessions[sid] == h.store.sessions[sid]
      {
        SubmitLeavesSessions(h, e.svc, e.sid, m, sid);
      }
    } else if IsRequest(e) {
      RequestSessions(h, e, m);
    } else {
      TaskStepSessions(h, e, m);
    }
  }

  lemma FactsForward(h: Hub, e: Event, r: Hub, sid: SessionId)
    requires SessionFacts(h, e, r) && SessionsOk(h)
    requires sid in h.store.sessions && (Source(h, e) == Some(sid) ==> h.store.sessions[sid].status !in {Failed, Expired})
    ensures sid in r.store.sessions && Forward(h.store.sessions[sid].status, r.store.sessions[sid].status)
  {
    if IsRequest(e) {
      RequestStatusForward(h, r, sid, e.CleanupTick? || e.LookAt?);
    } else if !e.Submit? && r != h {
      TaskStatusForward(h, e, r, sid);
    }
  }

  // Off the single-slot devices no session fades while it is held.
  lemma SourceInPhase(h: Hub, e: Event, sid: SessionId)
    requires SessionsOk(h) && Source(h, e) == Some(sid)
    ensures sid in h.store.sessions
    ensures !OnSingle(h.store, h.store.sessions[sid].service) ==> h.store.sessions[sid].status !in {Failed, Expired}
  {
    var q := Origin(h, e, InTask(Actor(e)));
    assert Lively(h.store, sid, PhaseIn(h, q));
  }

  /** Off the single-slot devices no step ever takes a session's status back. */
  lemma StepStatusForward(h: Hub, e: Event, m: Moment, sid: SessionId)
    requires Invariant(h) && SessionsOk(h)
    requires sid in h.store.sessions && !OnSingle(h.store, h.store.sessions[sid].service)
    ensures sid in Step(h, e, m).store.sessions
    ensures Forward(h.store.sessions[sid].status, Step(h, e, m).store.sessions[sid].status)
  {
    StepSessionFacts(h, e, m);
    if Source(h, e) == Some(sid) {
      SourceInPhase(h, e, sid);
    }
    FactsForward(h, e, Step(h, e, m), sid);
  }

  lemma TaskNeverExpires(h: Hub, e: Event, r: Hub, sid: SessionId)
    requires TaskCarries(h, e, r) || TaskCompletes(h, e, r)
    requires sid in h.store.sessions && h.store.sessions[sid].status != Expired
    ensures sid in r.store.sessions && r.store.sessions[sid].status != Expired
  {
  }

  lemma CleanupExpires(h: Hub, e: Event, m: Moment, sid: SessionId)
    requires Shape(h) && sid in h.store.sessions && h.store.sessions[sid].status != Expired && (e.CleanupTick? || e.LookAt?)
    ensures sid in Step(h, e, m).store.sessions
    ensures Step(h, e, m).store.sessions[sid].status == Expired <==> Outlived(h.store, sid, m.now)
  {
  }

  lemma FactsNeverExpire(h: Hub, e: Event, r: Hub, sid: SessionId)
    requires SessionFacts(h, e, r) && !e.CleanupTick? && !e.LookAt?
    requires sid in h.store.sessions && h.store.sessions[sid].status != Expired
    ensures sid in r.store.sessions && r.store.sessions[sid].status != Expired
  {
    if IsRequest(e) {
      assert Fades(h.store, h.store.sessions[sid], r.store.sessions[sid], false);
    } else if !e.Submit? && r != h {
      TaskNeverExpires(h, e, r, sid);
    }
  }

  /** A step makes a session EXPIRED exactly if it cleans up and the session had finished or
      failed at least its service's time to live before. */
  lemma ExpiresExactlyWhenOutlived(h: Hub, e: Event, m: Moment, sid: SessionId)
    requires Invariant(h) && sid in h.store.sessions && h.store.sessions[sid].status != Expired
    ensures sid in Step(h, e, m).store.sessions
    ensures Step(h, e, m).store.sessions[sid].status == Expired <==>
            (e.CleanupTick? || e.LookAt?) && Outlived(h.store, sid, m.now)
  {
    if e.CleanupTick? || e.LookAt? {
      CleanupExpires(h, e, m, sid);
    } else {
      StepSessionFacts(h, e, m);
      FactsNeverExpire(h, e, Step(h, e, m), sid);
    }
  }

  // What is followed along a run: the invariants, and one session that has come so far.
  ghost predicate ComeSoFar(h: Hub, sid: SessionId, from: SessionStatus) {
    && Invariant(h) && SessionsOk(h)
    && sid in h.store.sessions && !OnSingle(h.store, h.store.sessions[sid].service)
    && Forward(from, h.store.sessions[sid].status)
  }

  lemma NextComesSoFar(h: Hub, step: (Event, Moment), sid: SessionId, from: SessionStatus)
    requires ComeSoFar(h, sid, from)
    ensures ComeSoFar(Next(h, step), sid, from)
  {
    NextKeepsInvariant(h, step);
    StepKeepsSessions(h, step.0, step.1);
    StepStatusForward(h, step.0, step.1, sid);
    StepKind(h, step.0, step.1);
    KindStays(h, step.0, Next(h, step));
    SingleStays(h.store, Next(h, step).store, h.store.sessions[sid].service);
  }

  /** From any state with the invariants, over any number of steps of any tasks: a session of a
      device that is not single-slot only moves forward through its life cycle. */
  lemma StatusOnlyForward(h: Hub, steps: seq<(Event, Moment)>, sid: SessionId)
    requires Invariant(h) && SessionsOk(h)
    requires sid in h.store.sessions && !OnSingle(h.store, h.store.sessions[sid].service)
    ensures sid in Reached(h, steps).store.sessions
    ensures Forward(h.store.sessions[sid].status, Reached(h, steps).store.sessions[sid].status)
  {
    var from := h.store.sessions[sid].status;
    var keep := (x: Hub) => ComeSoFar(x, sid, from);
    forall x, e: (Event, Moment) | keep(x)
      ensures keep(Next(x, e))
    {
      NextComesSoFar(x, e, sid, from);
    }
    AlwaysAfter(keep, Next, h, steps);
  }

  lemma FreshSessions(h: Hub)
    requires Fresh(h)
    ensures SessionsOk(h)
  {
    forall p
      ensures HeldIn(h, p) == None
    {
    }
  }

  /** At every await point of every run: a result is stored exactly if its session is FINISHED,
      and no session is in two hands (two workers, or a worker and the queue). */
  lemma ResultsTrackSessions(h: Hub, steps: seq<(Event, Moment)>)
    requires Fresh(h)
    ensures ResultsMatch(Reached(h, steps).store) && HeldOnce(Reached(h, steps))
  {
    FreshInvariant(h);
    FreshSessions(h);
    var keep := (x: Hub) => Invariant(x) && SessionsOk(x);
    forall x, e: (Event, Moment) | keep(x)
      ensures keep(Next(x, e))
    {
      NextKeepsInvariant(x, e);
      StepKeepsSessions(x, e.0, e.1);
    }
    AlwaysAfter(keep, Next, h, steps);
  }

  /** On a single-slot device it is otherwise: a session that a lease failed in the queue, of a
      service that is up, is dispatched all the same when a worker comes to it, even if it has
      expired since. */
  lemma FailedSessionRevived(h: Hub, t: TaskId, m: Moment)
    requires Shape(h) && HasWork(h, t)
    requires var (svc, sid) := h.queues[t.device][0];
             h.store.sessions[sid].status in {Failed, Expired} && svc !in h.locks && h.store.services[svc].status !in {Stopped, HubTypes.Error}
    ensures var r := Step(h, Dequeue(t), m);
            var (svc, sid) := h.queues[t.device][0];
            sid in r.store.sessions && r.store.sessions[sid].status == SessionProcessing && r.tasks == h.tasks[t := Forwarding(svc, sid)]
  {
    var (svc, sid) := h.queues[t.device][0];
    var s1 := TakenOff(h.store, svc);
    var d := h.store.services[svc].def.device;
    assert AbortIfBusy(s1, d, sid, m.now) == (s1, false);
  }
}
