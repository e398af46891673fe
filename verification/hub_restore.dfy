/** Restore after a ONCE session: when nothing else happens meanwhile, the services that its
    reclaim stopped come back, all but those that the resume window shuts out. */
module HubRestore {
  import opened Wrappers
  import opened HubTypes
  import opened HubStore
  import opened HubScheduler
  import opened HubMachine
  import opened HubStoreLaws
  import opened HubRuns
  import opened HubSteps
  import opened HubSlots
  import opened HubSafety
  import opened HubLoad
  import opened HubClaims
  import opened Seqs

  // The start commands of a restore, one after another, all successful.
  function Restorings(t: TaskId, ms: seq<Moment>): seq<(Event, Moment)> {
    if ms == [] then [] else [(Restored(t, true), ms[0])] + Restorings(t, ms[1..])
  }

  // -- the order --------------------------------------------------------------------------

  lemma RestoreOrderWeak(services: map<Name, ServiceRuntime>)
    ensures WeakOrder((a, b) => RestoredBefore(services, a, b))
  {
  }

  // Of two services to be restarted, a may come first: it was used later, or at the same time and
  // is not a ONCE service before an ALWAYS one.
  predicate RestartsFirst(a: ServiceRuntime, b: ServiceRuntime) {
    && a.lastUsed.Some? && b.lastUsed.Some? && a.lastUsed.value >= b.lastUsed.value
    && (a.lastUsed == b.lastUsed ==> !(a.def.mode == Once && b.def.mode == Always))
  }

  predicate InRestartOrder(services: map<Name, ServiceRuntime>, todo: seq<Name>) {
    forall i, j :: 0 <= i < j < |todo| ==>
      todo[i] in services && todo[j] in services && RestartsFirst(services[todo[i]], services[todo[j]])
  }

  lemma SortedRestarts(services: map<Name, ServiceRuntime>, todo: seq<Name>)
    requires SortedBy((a, b) => RestoredBefore(services, a, b), todo)
    requires forall n :: n in todo ==> n in services && services[n].lastUsed.Some?
    ensures InRestartOrder(services, todo)
  {
    forall i, j | 0 <= i < j < |todo|
      ensures todo[i] in services && todo[j] in services && RestartsFirst(services[todo[i]], services[todo[j]])
    {
      assert todo[i] in todo && todo[j] in todo;
      assert !RestoredBefore(services, todo[j], todo[i]);
    }
  }

  // Stopped, and used within the resume window.
  predicate Resumes(s: Store, d: Name, now: Time, n: Name)
    requires d in s.devices
  {
    && n in s.services && s.services[n].status == Stopped && s.services[n].lastUsed.Some?
    && now - s.services[n].lastUsed.value <= s.devices[d].def.resumeWindow * 1_000_000
  }

  /** The restore order: the noted services that are stopped and were last used at most the resume
      window ago, each once, the most recently used first and, among equally recent ones, ALWAYS
      services before ONCE ones. */
  lemma RestoreOrderSorted(s: Store, d: Name, now: Time, names: seq<Name>)
    requires d in s.devices
    ensures var todo := RestoreOrder(s, d, now, names);
            && (NoDup(names) ==> NoDup(todo)) && InRestartOrder(s.services, todo)
            && forall n :: n in todo <==> n in names && Resumes(s, d, now, n)
  {
    var open := n => Restorable(s, d, now, n);
    var before := (a, b) => RestoredBefore(s.services, a, b);
    FilterElements(open, names);
    SortElements(before, Filter(open, names));
    if NoDup(names) {
      FilterNoDup(open, names);
      SortNoDup(before, Filter(open, names));
    }
    RestoreOrderWeak(s.services);
    SortSorts(before, Filter(open, names));
    SortedRestarts(s.services, RestoreOrder(s, d, now, names));
  }

  // -- the starts -------------------------------------------------------------------------

  // Worker t of device d is about to restart the services of todo, first to last.
  ghost predicate RestoringNow(h: Hub, t: TaskId, todo: seq<Name>) {
    t in h.tasks && h.tasks[t] == if todo == [] then Waiting else Restoring(todo[0], todo[1..])
  }

  // The services of todo are down, and fit on the device beside what runs there.
  ghost predicate Returnable(cfg: Config, s: Store, d: Name, todo: seq<Name>) {
    && Tracked(cfg, s, d) && NoDup(cfg.names) && Sized(s.services) && NoDup(todo)
    && (forall n :: n in todo ==> n in cfg.names && n in s.services && s.services[n].def.device == d && n !in s.devices[d].running)
    && Load(cfg.names, s.devices[d].running + Elements(todo), s.services) <= cfg.capacity[d]
  }

  // The first of them fits on its own.
  lemma FirstFits(cfg: Config, s: Store, d: Name, todo: seq<Name>)
    requires Returnable(cfg, s, d, todo) && todo != []
    ensures Memory(s.services, todo[0]) <= Room(cfg, s, d)
  {
    var running := s.devices[d].running;
    assert todo[0] in todo;
    LoadExact(cfg.names, running, todo[0], s.services);
    LoadShrinks(cfg.names, running + Elements(todo), running + {todo[0]}, s.services);
  }

  // Once it is started, the others are still returnable.
  lemma RestReturnable(cfg: Config, s: Store, d: Name, todo: seq<Name>, now: Time)
    requires Returnable(cfg, s, d, todo) && todo != []
    ensures todo[0] in s.services && Returnable(cfg, MarkStarted(s, todo[0], now), d, todo[1..])
    ensures SameSizes(s.services, MarkStarted(s, todo[0], now).services)
    ensures MarkStarted(s, todo[0], now).devices[d].running == s.devices[d].running + {todo[0]}
  {
    assert todo[0] in todo && todo == [todo[0]] + todo[1..];
    var r := MarkStarted(s, todo[0], now);
    assert s.devices[d].running + Elements(todo) == r.devices[d].running + Elements(todo[1..]);
    SameLoadSizes(cfg.names, r.devices[d].running + Elements(todo[1..]), s.services, r.services);
  }

  lemma RestoreNextGoesOn(h: Hub, t: TaskId, d: Name, todo: seq<Name>)
    requires t.Worker? && Returnable(h.cfg, h.store, d, todo)
    ensures RestoringNow(RestoreNext(h, t, d, todo), t, todo)
    ensures RestoreNext(h, t, d, todo).store == h.store && RestoreNext(h, t, d, todo).cfg == h.cfg
  {
    if todo != [] {
      FirstFits(h.cfg, h.store, d, todo);
    }
  }

  lemma RestoredIs(h: Hub, t: TaskId, svc: Name, rest: seq<Name>, m: Moment)
    requires Shape(h) && t.Worker? && t in h.tasks && h.tasks[t] == Restoring(svc, rest)
    requires svc in h.store.services && t.device in h.store.devices
    ensures KnownTask(h.store, TaskDevice(h, t), h.tasks[t])
    ensures Step(h, Restored(t, true), m) == AfterRestore(h, t, true, m)
  {
  }

  lemma AfterRestoreIs(h: Hub, t: TaskId, svc: Name, rest: seq<Name>, m: Moment)
    requires t.Worker? && t in h.tasks && h.tasks[t] == Restoring(svc, rest)
    requires KnownTask(h.store, TaskDevice(h, t), h.tasks[t])
    requires svc in h.store.services && t.device in h.store.devices
    ensures t.device in MarkStarted(h.store, svc, m.now).devices
    ensures AfterRestore(h, t, true, m) == RestoreNext(h.(store := MarkStarted(h.store, svc, m.now)), t, t.device, rest)
  {
  }

  // The worker is ready for the rest, and device d runs the services of more in addition.
  ghost predicate Back(h: Hub, r: Hub, t: TaskId, rest: seq<Name>, more: set<Name>) {
    && r.cfg == h.cfg && RestoringNow(r, t, rest)
    && t.Worker? && t.device in h.store.devices && t.device in r.store.devices
    && r.store.devices[t.device].running == h.store.devices[t.device].running + more
    && r.store.devices[t.device].pending == h.store.devices[t.device].pending
  }

  lemma OneStarts(h: Hub, t: TaskId, todo: seq<Name>, now: Time)
    requires t.Worker? && todo != [] && Returnable(h.cfg, h.store, t.device, todo)
    ensures todo[0] in h.store.services
    ensures var h1 := h.(store := MarkStarted(h.store, todo[0], now));
            && t.device in h1.store.devices && Back(h, RestoreNext(h1, t, t.device, todo[1..]), t, todo[1..], {todo[0]})
            && Returnable(h1.cfg, RestoreNext(h1, t, t.device, todo[1..]).store, t.device, todo[1..])
  {
    assert todo[0] in todo;
    RestReturnable(h.cfg, h.store, t.device, todo, now);
    RestoreNextGoesOn(h.(store := MarkStarted(h.store, todo[0], now)), t, t.device, todo[1..]);
  }

  // One start: the service runs, and the rest is still to come.
  lemma OneBack(h: Hub, t: TaskId, todo: seq<Name>, m: Moment)
    requires Invariant(h) && t.Worker? && todo != [] && RestoringNow(h, t, todo) && Returnable(h.cfg, h.store, t.device, todo)
    ensures var r := Step(h, Restored(t, true), m);
            Back(h, r, t, todo[1..], {todo[0]}) && Returnable(r.cfg, r.store, t.device, todo[1..])
  {
    OneStarts(h, t, todo, m.now);
    RestoredIs(h, t, todo[0], todo[1..], m);
    AfterRestoreIs(h, t, todo[0], todo[1..], m);
  }

  lemma BackChain(h: Hub, mid: Hub, r: Hub, t: TaskId, todo: seq<Name>)
    requires todo != [] && Back(h, mid, t, todo[1..], {todo[0]}) && Back(mid, r, t, [], Elements(todo[1..]))
    ensures Back(h, r, t, [], Elements(todo))
  {
    assert todo == [todo[0]] + todo[1..];
    assert Elements(todo) == {todo[0]} + Elements(todo[1..]);
  }

  lemma FirstBack(h: Hub, t: TaskId, todo: seq<Name>, ms: seq<Moment>) returns (next: Hub)
    requires Invariant(h) && t.Worker? && todo != [] && |ms| == |todo| && RestoringNow(h, t, todo) && Returnable(h.cfg, h.store, t.device, todo)
    ensures Invariant(next) && Reached(h, Restorings(t, ms)) == Reached(next, Restorings(t, ms[1..]))
    ensures Back(h, next, t, todo[1..], {todo[0]}) && Returnable(next.cfg, next.store, t.device, todo[1..])
  {
    OneBack(h, t, todo, ms[0]);
    ReachedStep(h, Restored(t, true), ms[0], Restorings(t, ms[1..]));
    next := Step(h, Restored(t, true), ms[0]);
  }

  lemma NothingBack(h: Hub, t: TaskId)
    requires t.Worker? && RestoringNow(h, t, []) && t.device in h.store.devices
    ensures Back(h, Reached(h, Restorings(t, [])), t, [], Elements([]))
  {
  }

  lemma {:induction false} AllBack(h: Hub, t: TaskId, todo: seq<Name>, ms: seq<Moment>)
    requires Invariant(h) && t.Worker? && RestoringNow(h, t, todo) && Returnable(h.cfg, h.store, t.device, todo) && |ms| == |todo|
    ensures Back(h, Reached(h, Restorings(t, ms)), t, [], Elements(todo))
    decreases |todo|
  {
    if todo == [] {
      assert ms == [];
      NothingBack(h, t);
    } else {
      var next := FirstBack(h, t, todo, ms);
      AllBack(next, t, todo[1..], ms[1..]);
      BackChain(h, next, Reached(next, Restorings(t, ms[1..])), t, todo);
    }
  }

  // -- the whole restore ------------------------------------------------------------------

  // The store once the ONCE service is down and the note of the session is taken.
  function Emptied(s: Store, d: Name, svc: Name, sid: SessionId, now: Time): Store
    requires svc in s.services && d in s.devices
  {
    Forgotten(MarkStopped(s, svc, now), d, sid)
  }

  // What the worker restores, in order.
  function ToReturn(s: Store, d: Name, svc: Name, sid: SessionId, now: Time): seq<Name>
    requires svc in s.services && d in s.devices
  {
    RestoreOrder(Emptied(s, d, svc, sid, now), d, now, PendingOf(s, d, sid))
  }

  lemma OnceStoppedIs(h: Hub, t: TaskId, svc: Name, sid: SessionId, m: Moment)
    requires Shape(h) && t.Worker? && t in h.tasks && h.tasks[t] == StoppingOnce(svc, sid) && t.device in h.store.devices
    ensures svc in h.store.services && h.store.services[svc].def.device == t.device
    ensures Step(h, OnceStopped(t, true), m)
         == RestoreNext(h.(store := Emptied(h.store, t.device, svc, sid, m.now)), t, t.device, ToReturn(h.store, t.device, svc, sid, m.now))
  {
    assert KnownTask(h.store, TaskDevice(h, t), h.tasks[t]);
  }

  lemma EmptiedDoes(s: Store, d: Name, svc: Name, sid: SessionId, now: Time)
    requires svc in s.services && d in s.devices && s.services[svc].def.device == d
    ensures var r := Emptied(s, d, svc, sid, now);
            && SameSizes(s.services, r.services) && d in r.devices && r.devices[d].running == s.devices[d].running - {svc}
            && r.devices[d].pending == s.devices[d].pending - {sid}
            && forall n :: n in s.services ==> n in r.services && r.services[n].def == s.services[n].def
  {
  }

  // What was running before the reclaim of the session: it fitted, and all that changed since is
  // that the session's service came and the noted services went.
  ghost predicate RanBefore(h: Hub, d: Name, svc: Name, sid: SessionId, before: set<Name>) {
    && Tracked(h.cfg, h.store, d) && NoDup(h.cfg.names) && Sized(h.store.services)
    && Load(h.cfg.names, before, h.store.services) <= h.cfg.capacity[d]
    && before <= Elements(h.cfg.names) && NoDup(PendingOf(h.store, d, sid))
    && Elements(PendingOf(h.store, d, sid)) <= before
    && h.store.devices[d].running - {svc} == before - Elements(PendingOf(h.store, d, sid))
  }

  lemma NotedReturnable(h: Hub, d: Name, svc: Name, sid: SessionId, before: set<Name>, now: Time)
    requires Sound(h) && RanBefore(h, d, svc, sid, before) && svc in h.store.services && h.store.services[svc].def.device == d
    ensures Returnable(h.cfg, Emptied(h.store, d, svc, sid, now), d, ToReturn(h.store, d, svc, sid, now))
  {
    var names, r, todo := PendingOf(h.store, d, sid), Emptied(h.store, d, svc, sid, now), ToReturn(h.store, d, svc, sid, now);
    EmptiedDoes(h.store, d, svc, sid, now);
    RestoreOrderSorted(r, d, now, names);
    assert PendingKnown(h.store, d);
    assert forall n :: n in todo ==> n in Elements(names) && n in before;
    LoadShrinks(h.cfg.names, before, r.devices[d].running + Elements(todo), h.store.services);
    SameLoadSizes(h.cfg.names, r.devices[d].running + Elements(todo), h.store.services, r.services);
  }

  lemma OnceBack(h: Hub, t: TaskId, svc: Name, sid: SessionId, before: set<Name>, m: Moment, ms: seq<Moment>) returns (next: Hub)
    requires Invariant(h) && t.Worker? && t in h.tasks && h.tasks[t] == StoppingOnce(svc, sid) && t.device in h.store.devices
    requires RanBefore(h, t.device, svc, sid, before) && svc in h.store.services
    ensures h.store.services[svc].def.device == t.device
    ensures Invariant(next) && next.cfg == h.cfg
    ensures Reached(h, [(OnceStopped(t, true), m)] + Restorings(t, ms)) == Reached(next, Restorings(t, ms))
    ensures next.store == Emptied(h.store, t.device, svc, sid, m.now)
    ensures var todo := ToReturn(h.store, t.device, svc, sid, m.now);
            RestoringNow(next, t, todo) && Returnable(next.cfg, next.store, t.device, todo)
  {
    OnceStoppedIs(h, t, svc, sid, m);
    NotedReturnable(h, t.device, svc, sid, before, m.now);
    ReachedStep(h, OnceStopped(t, true), m, Restorings(t, ms));
    RestoreNextGoesOn(h.(store := Emptied(h.store, t.device, svc, sid, m.now)), t, t.device, ToReturn(h.store, t.device, svc, sid, m.now));
    next := Step(h, OnceStopped(t, true), m);
  }

  /** A session of a ONCE service undoes its reclaim: if all that changed on the device since is
      that the session's service came up and the reclaimed ones went down, then stopping the
      service and restarting what is noted, all commands succeeding, leaves the device running
      what it ran before, but for the noted services that are not restorable: no longer down,
      never used, or last used before the resume window. */
  lemma RestoreUndoesReclaim(h: Hub, t: TaskId, svc: Name, sid: SessionId, before: set<Name>, m: Moment, ms: seq<Moment>)
    requires Invariant(h) && t.Worker? && t in h.tasks && h.tasks[t] == StoppingOnce(svc, sid) && t.device in h.store.devices
    requires RanBefore(h, t.device, svc, sid, before) && svc in h.store.services
    requires |ms| == |ToReturn(h.store, t.device, svc, sid, m.now)|
    ensures var d := t.device;
            var r := Reached(h, [(OnceStopped(t, true), m)] + Restorings(t, ms));
            && t in r.tasks && r.tasks[t] == Waiting && d in r.store.devices
            && r.store.devices[d].pending == h.store.devices[d].pending - {sid}
            && forall n :: n in r.store.devices[d].running <==>
                 n in before && (n in PendingOf(h.store, d, sid) ==> Resumes(Emptied(h.store, d, svc, sid, m.now), d, m.now, n))
  {
    var d, names := t.device, PendingOf(h.store, t.device, sid);
    var next := OnceBack(h, t, svc, sid, before, m, ms);
    AllBack(next, t, ToReturn(h.store, d, svc, sid, m.now), ms);
    EmptiedDoes(h.store, d, svc, sid, m.now);
    RestoreOrderSorted(next.store, d, m.now, names);
    ComesToBefore(next.store.devices[d].running, names, ToReturn(h.store, d, svc, sid, m.now), before);
  }

  lemma ComesToBefore(running: set<Name>, names: seq<Name>, todo: seq<Name>, before: set<Name>)
    requires running == before - Elements(names) && Elements(names) <= before && (forall n :: n in todo ==> n in names)
    ensures forall n :: n in running + Elements(todo) <==> n in before && (n in names ==> n in todo)
  {
    assert forall n :: n in Elements(names) <==> n in names;
    assert forall n :: n in names ==> n in before;
  }
}
