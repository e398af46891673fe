/** Exactly which steps bring a device over its memory: those that report a service as started for
    which there is no room. */
module HubAdmission {
  import opened Wrappers
  import opened HubTypes
  import opened HubStore
  import opened HubStoreLaws
  import opened HubScheduler
  import opened HubMachine
  import opened HubSteps
  import opened HubSlots
  import opened HubSafety
  import opened HubLoad
  import opened HubClaims
  import opened HubMemory

  ghost predicate SameRunning(s: Store, r: Store) {
    s.devices.Keys == r.devices.Keys && forall d :: d in s.devices ==> r.devices[d].running == s.devices[d].running
  }

  lemma FinallyRunning(s: Store, d: Name, svc: Name, sid: SessionId, now: Time)
    requires svc in s.services && sid in s.sessions
    ensures SameRunning(s, Finally(s, d, svc, sid, now))
  {
  }

  lemma AbortRunning(s: Store, d: Name, sid: SessionId, now: Time)
    requires sid in s.sessions
    ensures SameRunning(s, AbortIfBusy(s, d, sid, now).0)
  {
  }

  lemma DispatchedRunning(s: Store, d: Name, svc: Name, sid: SessionId, now: Time)
    requires svc in s.services && sid in s.sessions
    ensures SameRunning(s, Dispatched(s, d, svc, sid, now))
  {
  }

  lemma SameRunningChain(s: Store, m: Store, r: Store)
    requires SameRunning(s, m) && SameRunning(m, r)
    ensures SameRunning(s, r)
  {
  }

  lemma TryDispatchRunning(h: Hub, t: TaskId, svc: Name, sid: SessionId, m: Moment)
    requires svc in h.store.services && sid in h.store.sessions
    ensures SameRunning(h.store, TryDispatch(h, t, svc, sid, m).store)
  {
    var d := h.store.services[svc].def.device;
    var (s1, busy) := AbortIfBusy(h.store, d, sid, m.now);
    AbortRunning(h.store, d, sid, m.now);
    if busy {
      FinallyRunning(s1, d, svc, sid, m.now);
      SameRunningChain(h.store, s1, Finally(s1, d, svc, sid, m.now));
    } else {
      DispatchedRunning(s1, d, svc, sid, m.now);
      SameRunningChain(h.store, s1, Dispatched(s1, d, svc, sid, m.now));
    }
  }

  // Device d runs one service more, and all others what they ran.
  ghost predicate OneStarts(s: Store, r: Store, svc: Name) {
    && svc in s.services && s.devices.Keys == r.devices.Keys
    && forall d :: d in s.devices ==>
         r.devices[d].running == s.devices[d].running + if d == s.services[svc].def.device then {svc} else {}
  }

  lemma MarkStartedStarts(s: Store, svc: Name, now: Time)
    requires svc in s.services
    ensures OneStarts(s, MarkStarted(s, svc, now), svc)
  {
  }

  lemma LaunchStarts(h: Hub, t: TaskId, m: Moment)
    requires t in h.tasks && h.tasks[t].Launching? && KnownTask(h.store, TaskDevice(h, t), h.tasks[t])
    ensures OneStarts(h.store, AfterLaunch(h, t, true, m).store, h.tasks[t].ctx.svc)
  {
    var ctx := h.tasks[t].ctx;
    var h1 := Unlock(h.(store := MarkStarted(h.store, ctx.svc, m.now)), ctx.svc);
    MarkStartedStarts(h.store, ctx.svc, m.now);
    if ctx.Auto? {
      TryDispatchRunning(h1, t, ctx.svc, ctx.sid, m);
    }
  }

  lemma RestoreStarts(h: Hub, t: TaskId, m: Moment)
    requires t in h.tasks && h.tasks[t].Restoring? && KnownTask(h.store, TaskDevice(h, t), h.tasks[t])
    ensures OneStarts(h.store, AfterRestore(h, t, true, m).store, h.tasks[t].svc)
  {
    MarkStartedStarts(h.store, h.tasks[t].svc, m.now);
  }

  lemma ProbeStarts(h: Hub, t: TaskId, m: Moment)
    requires t in h.tasks && h.tasks[t].HttpProbing? && KnownTask(h.store, TaskDevice(h, t), h.tasks[t])
    requires h.store.services[h.tasks[t].svc].status == Stopped
    ensures OneStarts(h.store, AfterProbe(h, t, true, m).store, h.tasks[t].svc)
  {
    MarkStartedStarts(h.store, h.tasks[t].svc, m.now);
  }

  // A step that reports a service as started adds it to its device's running set, and nothing else.
  lemma StarterStarts(h: Hub, e: Event, m: Moment)
    requires Shape(h) && Starts(h, e).Some?
    ensures OneStarts(h.store, Step(h, e, m).store, Starts(h, e).value)
  {
    var t := Actor(e);
    assert KnownTask(h.store, TaskDevice(h, t), h.tasks[t]);
    if e.Launched? {
      LaunchStarts(h, t, m);
    } else if e.Restored? {
      RestoreStarts(h, t, m);
    } else {
      ProbeStarts(h, t, m);
    }
  }

  // The guard: the step starts a service of d that does not run yet and does not fit.
  predicate StartsUnfit(h: Hub, e: Event, d: Name)
    requires Tracked(h.cfg, h.store, d)
  {
    && Starts(h, e).Some? && Starts(h, e).value in h.store.services && h.store.services[Starts(h, e).value].def.device == d
    && Starts(h, e).value !in h.store.devices[d].running
    && Memory(h.store.services, Starts(h, e).value) > Room(h.cfg, h.store, d)
  }

  ghost predicate OverIff(h: Hub, e: Event, r: Hub, d: Name)
    requires Tracked(h.cfg, h.store, d)
  {
    Tracked(r.cfg, r.store, d) && (Room(r.cfg, r.store, d) < 0 <==> StartsUnfit(h, e, d))
  }

  lemma RoomAfterStart(h: Hub, e: Event, r: Hub, d: Name)
    requires SaneSizes(h.cfg, h.store) && Tracked(h.cfg, h.store, d) && Room(h.cfg, h.store, d) >= 0
    requires Starts(h, e).Some? && OneStarts(h.store, r.store, Starts(h, e).value)
    requires r.cfg == h.cfg && SameSizes(h.store.services, r.store.services)
    ensures OverIff(h, e, r, d)
  {
    var n, running := Starts(h, e).value, h.store.devices[d].running;
    SameLoadSizes(h.cfg.names, r.store.devices[d].running, h.store.services, r.store.services);
    if n in running || h.store.services[n].def.device != d {
      assert r.store.devices[d].running == running;
    } else {
      LoadExact(h.cfg.names, running, n, h.store.services);
    }
  }

  lemma RoomWithoutStart(h: Hub, e: Event, r: Hub, d: Name)
    requires SaneSizes(h.cfg, h.store) && Tracked(h.cfg, h.store, d) && Room(h.cfg, h.store, d) >= 0
    requires Starts(h, e).None? && RunningWithin(h.store, r.store, {}) && r.cfg == h.cfg
    ensures OverIff(h, e, r, d)
  {
    RoomGrows(h.cfg, h.store, r.store, d);
  }

  /** Serialised or not, a step brings a tracked device over its memory exactly if it reports as
      started, after a launch, a restore or a health check, a service that was not running there
      and that needs more than the device has left at that moment. */
  lemma StepOvercommitsExactly(h: Hub, e: Event, m: Moment, d: Name)
    requires Invariant(h) && SaneSizes(h.cfg, h.store) && Tracked(h.cfg, h.store, d) && Room(h.cfg, h.store, d) >= 0
    ensures Tracked(Step(h, e, m).cfg, Step(h, e, m).store, d)
    ensures Room(Step(h, e, m).cfg, Step(h, e, m).store, d) < 0 <==> StartsUnfit(h, e, d)
  {
    var r := Step(h, e, m);
    StepKind(h, e, m);
    KindRunning(h, e, r);
    if Starts(h, e).Some? {
      StarterStarts(h, e, m);
      RoomAfterStart(h, e, r, d);
    } else {
      RoomWithoutStart(h, e, r, d);
    }
  }

  // -- the health check -------------------------------------------------------------------

  function HealthCheck(t: TaskId, svc: Name, m: Moment): seq<(Event, Moment)> {
    [(HttpProbe(t, svc), m)] + ([(HttpProbed(t, true), m)] + [])
  }

  lemma ProbeBegins(h: Hub, t: TaskId, svc: Name, m: Moment)
    requires Shape(h) && t.Http? && t !in h.tasks && svc in h.store.services
    ensures Step(h, HttpProbe(t, svc), m) == SetTask(h, t, HttpProbing(svc))
  {
  }

  lemma ProbeGuard(h: Hub, t: TaskId, svc: Name, d: Name)
    requires Tracked(h.cfg, h.store, d) && svc in h.store.services && h.store.services[svc].def.device == d
    requires h.store.services[svc].status == Stopped
    ensures StartsUnfit(SetTask(h, t, HttpProbing(svc)), HttpProbed(t, true), d)
        <==> svc !in h.store.devices[d].running && Memory(h.store.services, svc) > Room(h.cfg, h.store, d)
  {
  }

  /** A health check that finds a stopped service up reports it as running without asking for
      memory: the device is over its memory afterwards exactly if the service does not fit. */
  lemma HealthCheckOvercommits(h: Hub, t: TaskId, svc: Name, d: Name, m: Moment)
    requires Invariant(h) && SaneSizes(h.cfg, h.store) && Tracked(h.cfg, h.store, d) && Room(h.cfg, h.store, d) >= 0
    requires t.Http? && t !in h.tasks && svc in h.store.services
    requires h.store.services[svc].def.device == d && h.store.services[svc].status == Stopped
    ensures var r := Reached(h, HealthCheck(t, svc, m));
            && Tracked(r.cfg, r.store, d)
            && (Room(r.cfg, r.store, d) < 0 <==>
                svc !in h.store.devices[d].running && Memory(h.store.services, svc) > Room(h.cfg, h.store, d))
  {
    var h1 := SetTask(h, t, HttpProbing(svc));
    ProbeBegins(h, t, svc, m);
    ReachedStep(h, HttpProbe(t, svc), m, [(HttpProbed(t, true), m)] + []);
    ReachedStep(h1, HttpProbed(t, true), m, []);
    StepOvercommitsExactly(h1, HttpProbed(t, true), m, d);
    ProbeGuard(h, t, svc, d);
  }
}
