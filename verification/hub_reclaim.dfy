/** Greedy reclaim, taken as one piece: which services are stopped to make room, and what the
    caller is told. */
module HubReclaim {
  import opened Wrappers
  import opened HubTypes
  import opened HubStore
  import opened HubScheduler
  import opened HubMachine
  import opened HubLoad
  import opened HubClaims
  import opened Seqs

  // True, false, or an error raised.
  datatype Capacity = Enough | Blocked | Insufficient

  function MemorySum(services: map<Name, ServiceRuntime>, names: seq<Name>): int {
    if names == [] then 0 else MemorySum(services, names[..|names| - 1]) + Memory(services, names[|names| - 1])
  }

  // How many of the candidates the loop stops.
  function Needed(services: map<Name, ServiceRuntime>, todo: seq<Name>, from: nat, available: int, required: int): (k: nat)
    requires from <= |todo|
    ensures from <= k <= |todo|
    decreases |todo| - from
  {
    if from == |todo| then from
    else if available + MemorySum(services, todo[..from + 1]) >= required then from + 1
    else Needed(services, todo, from + 1, available, required)
  }

  predicate AllKnown(s: Store, names: seq<Name>) {
    forall n :: n in names ==> n in s.services
  }

  function StoppedAll(s: Store, ctx: Context, names: seq<Name>, now: Time): (r: Store)
    requires AllKnown(s, names)
    ensures r.services.Keys == s.services.Keys
  {
    if names == [] then s
    else
      assert names[|names| - 1] in names;
      StopForReclaim(StoppedAll(s, ctx, names[..|names| - 1], now), ctx, names[|names| - 1], now)
  }

  function Selected(s: Store, d: Name, target: Name, order: seq<Name>, now: Time): (Store, seq<Name>) {
    if d !in s.devices then (s, [])
    else
      var swept := Sweep(s, Probed(s, d, target), now);
      (swept, Candidates(swept, d, target, order))
  }

  function StoppedNames(s: Store, d: Name, ctx: Context, available: int, order: seq<Name>, now: Time): seq<Name>
    requires ctx.svc in s.services
  {
    var todo := Selected(s, d, ctx.svc, order, now).1;
    todo[..Needed(s.services, todo, 0, available, s.services[ctx.svc].def.memory)]
  }

  // The end of the call: a note for the restore, or the answer why there is not enough.
  function AfterStops(s: Store, d: Name, ctx: Context, stopped: seq<Name>, enough: bool): (Store, Capacity) {
    if enough then (if ctx.Auto? && d in s.devices && stopped != [] then NotePending(s, d, ctx.sid, stopped) else s, Enough)
    else (s, if BusyPeer(s, d, ctx.svc) then Blocked else Insufficient)
  }

  function StopsOf(s: Store, d: Name, ctx: Context, available: int, order: seq<Name>, now: Time): Store
    requires ctx.svc in s.services && (forall n :: n in order ==> n in s.services)
  {
    SelectedKnown(s, d, ctx.svc, order, now);
    StoppedAll(Selected(s, d, ctx.svc, order, now).0, ctx, StoppedNames(s, d, ctx, available, order, now), now)
  }

  // _ensure_memory_capacity, when nothing else runs while it waits for the stops.
  function MakeRoom(s: Store, d: Name, ctx: Context, available: int, order: seq<Name>, now: Time): (Store, Capacity)
    requires ctx.svc in s.services && (forall n :: n in order ==> n in s.services)
  {
    var required := s.services[ctx.svc].def.memory;
    if available >= required then (s, Enough)
    else
      var stopped := StoppedNames(s, d, ctx, available, order, now);
      AfterStops(StopsOf(s, d, ctx, available, order, now), d, ctx, stopped,
                 available + MemorySum(s.services, stopped) >= required)
  }

  lemma SelectedKnown(s: Store, d: Name, target: Name, order: seq<Name>, now: Time)
    requires forall n :: n in order ==> n in s.services
    ensures AllKnown(Selected(s, d, target, order, now).0, Selected(s, d, target, order, now).1)
  {
    if d in s.devices {
      var swept := Sweep(s, Probed(s, d, target), now);
      FilterElements(n => Eligible(swept, d, target, n), order);
      SortElements((a, b) => ReclaimedBefore(swept.services, a, b), Filter(n => Eligible(swept, d, target, n), order));
    }
  }

  // -- what is stopped --------------------------------------------------------------------

  /** The loop stops the shortest prefix that frees enough, and all candidates if none does. */
  lemma {:induction false} NeededIsShortest(services: map<Name, ServiceRuntime>, todo: seq<Name>, from: nat, available: int, required: int)
    requires from <= |todo|
    ensures var k := Needed(services, todo, from, available, required);
            && (k < |todo| ==> available + MemorySum(services, todo[..k]) >= required)
            && (forall j :: from < j < k ==> available + MemorySum(services, todo[..j]) < required)
            && (available + MemorySum(services, todo[..k]) < required ==> k == |todo|)
    decreases |todo| - from
  {
    if from < |todo| && available + MemorySum(services, todo[..from + 1]) < required {
      NeededIsShortest(services, todo, from + 1, available, required);
    } else if from == |todo| {
      assert todo[..from] == todo;
    }
  }

  lemma ReclaimOrderWeak(services: map<Name, ServiceRuntime>)
    ensures WeakOrder((a, b) => ReclaimedBefore(services, a, b))
  {
  }

  // Of two services to be stopped, a may come first: no ONCE service waits behind an ALWAYS one and,
  // of two in the same mode, a was never used or not later than b.
  predicate StopsFirst(a: ServiceRuntime, b: ServiceRuntime) {
    && (a.def.mode == Always ==> b.def.mode == Always)
    && (a.def.mode == b.def.mode ==> a.lastUsed.None? || (b.lastUsed.Some? && a.lastUsed.value <= b.lastUsed.value))
  }

  predicate InStopOrder(services: map<Name, ServiceRuntime>, todo: seq<Name>) {
    forall i, j :: 0 <= i < j < |todo| ==>
      todo[i] in services && todo[j] in services && StopsFirst(services[todo[i]], services[todo[j]])
  }

  lemma SortedStops(services: map<Name, ServiceRuntime>, todo: seq<Name>)
    requires SortedBy((a, b) => ReclaimedBefore(services, a, b), todo) && forall n :: n in todo ==> n in services
    ensures InStopOrder(services, todo)
  {
    forall i, j | 0 <= i < j < |todo|
      ensures todo[i] in services && todo[j] in services && StopsFirst(services[todo[i]], services[todo[j]])
    {
      assert todo[i] in todo && todo[j] in todo;
      assert !ReclaimedBefore(services, todo[j], todo[i]);
    }
  }

  /** The candidates, in order: every running service but the target with nothing in flight, no lease
      and idle or failed, exactly once, ONCE services before ALWAYS ones and, within a mode, the
      never or least recently used first. */
  lemma CandidatesSorted(s: Store, d: Name, target: Name, order: seq<Name>)
    requires d in s.devices && NoDup(order) && (forall n :: n in order <==> n in s.devices[d].running)
    ensures var todo := Candidates(s, d, target, order);
            && NoDup(todo) && InStopOrder(s.services, todo)
            && forall n :: n in todo <==>
                 && n in s.devices[d].running && n in s.services && n != target && s.services[n].inflight <= 0
                 && s.services[n].leases == map[] && s.services[n].status in {Idle, Error}
  {
    var eligible := n => Eligible(s, d, target, n);
    var before := (a, b) => ReclaimedBefore(s.services, a, b);
    FilterElements(eligible, order);
    FilterNoDup(eligible, order);
    SortElements(before, Filter(eligible, order));
    SortNoDup(before, Filter(eligible, order));
    ReclaimOrderWeak(s.services);
    SortSorts(before, Filter(eligible, order));
    SortedStops(s.services, Candidates(s, d, target, order));
  }

  lemma NoneLive(leases: map<LeaseId, Time>, now: Time)
    ensures LiveLeases(leases, now) == map[] <==> forall l :: l in leases ==> leases[l] <= now
  {
    forall l | l in leases && leases[l] > now
      ensures LiveLeases(leases, now) != map[]
    {
      assert l in LiveLeases(leases, now);
    }
    if LiveLeases(leases, now) != map[] {
      var l :| l in LiveLeases(leases, now);
    }
  }

  // A service that may be stopped, seen before the expired leases are dropped.
  predicate Stoppable(s: Store, d: Name, target: Name, n: Name, now: Time)
    requires d in s.devices
  {
    && n in s.devices[d].running && n != target && n in s.services
    && s.services[n].inflight <= 0 && (forall l :: l in s.services[n].leases ==> s.services[n].leases[l] <= now)
    && (s.services[n].status in {Idle, Error} || s.services[n].status == External)
  }

  /** Each candidate was running, with no request in flight and no live lease, idle or failed (or
      EXTERNAL by leases that have all run out); and every such service is a candidate. */
  lemma SelectedAreStoppable(s: Store, d: Name, target: Name, order: seq<Name>, now: Time)
    requires d in s.devices && NoDup(order) && (forall n :: n in order <==> n in s.devices[d].running)
    ensures forall n :: n in Selected(s, d, target, order, now).1 <==> Stoppable(s, d, target, n, now)
  {
    var swept := Sweep(s, Probed(s, d, target), now);
    CandidatesSorted(swept, d, target, order);
    forall n
      ensures Eligible(swept, d, target, n) <==> Stoppable(s, d, target, n, now)
    {
      if n in s.services && n in Probed(s, d, target) {
        assert swept.services[n] == SweptService(s.services[n], now);
        NoneLive(s.services[n].leases, now);
      }
    }
  }

  // -- what stopping does -----------------------------------------------------------------

  lemma {:induction false} StoppedAllDoes(s: Store, ctx: Context, names: seq<Name>, d: Name, now: Time)
    requires AllKnown(s, names) && d in s.devices && (forall n :: n in names ==> s.services[n].def.device == d)
    ensures var r := StoppedAll(s, ctx, names, now);
            && SameSizes(s.services, r.services) && d in r.devices
            && r.devices[d].running == s.devices[d].running - (set n | n in names)
            && r.devices[d].pending == s.devices[d].pending
    ensures forall n :: n in s.services && n !in names ==> StoppedAll(s, ctx, names, now).services[n] == s.services[n]
    ensures forall n :: n in names ==> StoppedAll(s, ctx, names, now).services[n].status == Stopped
    ensures forall n :: n in names && ctx.Auto? ==> ctx.sid in StoppedAll(s, ctx, names, now).services[n].reclaimedFor
  {
    if names != [] {
      var rest, last := names[..|names| - 1], names[|names| - 1];
      assert names == rest + [last];
      assert last in names;
      StoppedAllDoes(s, ctx, rest, d, now);
      StopForReclaimUse(StoppedAll(s, ctx, rest, now), d, ctx, last, now);
    }
  }

  lemma RoomAfterStop(cfg: Config, s: Store, m: Store, r: Store, d: Name, n: Name)
    requires Tracked(cfg, m, d) && d in r.devices && NoDup(cfg.names) && n in cfg.names
    requires SameSizes(s.services, m.services) && SameSizes(s.services, r.services)
    requires n in m.devices[d].running && r.devices[d].running == m.devices[d].running - {n}
    ensures Room(cfg, r, d) == Room(cfg, m, d) + Memory(s.services, n)
  {
    var running := r.devices[d].running;
    assert m.devices[d].running == running + {n};
    LoadExact(cfg.names, running, n, m.services);
    SameLoadSizes(cfg.names, running, m.services, r.services);
  }

  lemma LastStop(s: Store, ctx: Context, names: seq<Name>, d: Name, now: Time)
    requires AllKnown(s, names) && names != [] && NoDup(names) && d in s.devices
    requires forall n :: n in names ==> s.services[n].def.device == d && n in s.devices[d].running
    ensures var rest, last := names[..|names| - 1], names[|names| - 1];
            var m, r := StoppedAll(s, ctx, rest, now), StoppedAll(s, ctx, names, now);
            && last in s.services && SameSizes(s.services, m.services) && SameSizes(s.services, r.services)
            && d in m.devices && d in r.devices && last in m.devices[d].running
            && r.devices[d].running == m.devices[d].running - {last}
  {
    var rest, last := names[..|names| - 1], names[|names| - 1];
    assert names == rest + [last] && last in names;
    assert last !in rest;
    StoppedAllDoes(s, ctx, rest, d, now);
    StopForReclaimUse(StoppedAll(s, ctx, rest, now), d, ctx, last, now);
  }

  /** After every stop of the loop the projected memory is exactly what the device has free. */
  lemma {:induction false} ProjectedIsReal(cfg: Config, s: Store, ctx: Context, names: seq<Name>, d: Name, now: Time)
    requires Tracked(cfg, s, d) && NoDup(cfg.names) && (forall n :: n in s.services ==> n in cfg.names)
    requires AllKnown(s, names) && NoDup(names)
    requires forall n :: n in names ==> s.services[n].def.device == d && n in s.devices[d].running
    ensures Tracked(cfg, StoppedAll(s, ctx, names, now), d)
    ensures Room(cfg, StoppedAll(s, ctx, names, now), d) == Room(cfg, s, d) + MemorySum(s.services, names)
  {
    if names != [] {
      var rest, last := names[..|names| - 1], names[|names| - 1];
      assert forall n :: n in rest ==> n in names;
      ProjectedIsReal(cfg, s, ctx, rest, d, now);
      LastStop(s, ctx, names, d, now);
      RoomAfterStop(cfg, s, StoppedAll(s, ctx, rest, now), StoppedAll(s, ctx, names, now), d, last);
    }
  }

  // A peer has a request in flight after the stops exactly if one had before: what is stopped
  // had none.
  lemma BusyPeerSame(s: Store, r: Store, d: Name, target: Name, stopped: seq<Name>)
    requires SameSizes(s.services, r.services)
    requires forall n :: n in stopped ==> n in s.services && s.services[n].inflight <= 0 && r.services[n].inflight <= 0
    requires forall n :: n in s.services && n !in stopped ==> r.services[n].inflight == s.services[n].inflight
    ensures BusyPeer(r, d, target) == BusyPeer(s, d, target)
  {
    forall n
      ensures (n in r.services && r.services[n].inflight > 0) == (n in s.services && s.services[n].inflight > 0)
    {
    }
  }

  // -- the whole ---------------------------------------------------------------------------

  // The running services of a device and an order in which they are iterated.
  ghost predicate Iterates(s: Store, d: Name, order: seq<Name>) {
    && d in s.devices && NoDup(order) && (forall n :: n in order <==> n in s.devices[d].running)
    && forall n :: n in order ==> n in s.services && s.services[n].def.device == d
  }

  lemma PrefixKnown(s: Store, d: Name, ctx: Context, available: int, order: seq<Name>, now: Time)
    requires ctx.svc in s.services && Iterates(s, d, order)
    ensures forall n :: n in StoppedNames(s, d, ctx, available, order, now) ==>
              n in s.services && s.services[n].def.device == d && s.services[n].inflight <= 0
  {
    SelectedAreStoppable(s, d, ctx.svc, order, now);
    var todo := Selected(s, d, ctx.svc, order, now).1;
    assert forall n :: n in StoppedNames(s, d, ctx, available, order, now) ==> n in todo;
  }

  lemma SelectedSame(s: Store, d: Name, target: Name, order: seq<Name>, now: Time)
    requires d in s.devices
    ensures var swept := Selected(s, d, target, order, now).0;
            && SameSizes(s.services, swept.services) && d in swept.devices
            && swept.devices[d].running == s.devices[d].running && swept.devices[d].pending == s.devices[d].pending
            && forall n :: n in s.services ==> swept.services[n].inflight == s.services[n].inflight
  {
  }

  lemma {:induction false} StoppedInflight(s: Store, ctx: Context, names: seq<Name>, now: Time)
    requires AllKnown(s, names)
    ensures forall n :: n in s.services ==>
              StoppedAll(s, ctx, names, now).services[n].inflight == if n in names then 0 else s.services[n].inflight
  {
    if names != [] {
      assert names == names[..|names| - 1] + [names[|names| - 1]];
      StoppedInflight(s, ctx, names[..|names| - 1], now);
    }
  }

  lemma StopsOfDoes(s: Store, d: Name, ctx: Context, available: int, order: seq<Name>, now: Time)
    requires ctx.svc in s.services && Iterates(s, d, order)
    ensures var r := StopsOf(s, d, ctx, available, order, now);
            var stopped := StoppedNames(s, d, ctx, available, order, now);
            && SameSizes(s.services, r.services) && (forall n :: n in stopped ==> n in r.services && r.services[n].status == Stopped)
            && d in r.devices && r.devices[d].running == s.devices[d].running - (set n | n in stopped)
            && r.devices[d].pending == s.devices[d].pending
  {
    PrefixKnown(s, d, ctx, available, order, now);
    SelectedSame(s, d, ctx.svc, order, now);
    StoppedAllDoes(Selected(s, d, ctx.svc, order, now).0, ctx, StoppedNames(s, d, ctx, available, order, now), d, now);
  }

  lemma StopsOfBusy(s: Store, d: Name, ctx: Context, available: int, order: seq<Name>, now: Time)
    requires ctx.svc in s.services && Iterates(s, d, order)
    ensures BusyPeer(StopsOf(s, d, ctx, available, order, now), d, ctx.svc) == BusyPeer(s, d, ctx.svc)
  {
    var stopped := StoppedNames(s, d, ctx, available, order, now);
    PrefixKnown(s, d, ctx, available, order, now);
    SelectedSame(s, d, ctx.svc, order, now);
    StopsOfDoes(s, d, ctx, available, order, now);
    StoppedInflight(Selected(s, d, ctx.svc, order, now).0, ctx, stopped, now);
    BusyPeerSame(s, StopsOf(s, d, ctx, available, order, now), d, ctx.svc, stopped);
  }

  lemma AfterStopsDoes(s: Store, d: Name, ctx: Context, stopped: seq<Name>, enough: bool)
    requires d in s.devices
    ensures var (r, answer) := AfterStops(s, d, ctx, stopped, enough);
            && r.services == s.services && d in r.devices && r.devices[d].running == s.devices[d].running
            && (answer == Enough <==> enough)
            && r.devices[d].pending == if enough && ctx.Auto? && stopped != []
                                       then s.devices[d].pending[ctx.sid := stopped] else s.devices[d].pending
  {
  }

  /** What a call that had to make room leaves behind: the stopped services are down, no other
      service of the device is, and a session that got its room has exactly the stopped services
      noted for its restore. */
  lemma ReclaimedStops(s: Store, d: Name, ctx: Context, available: int, order: seq<Name>, now: Time)
    requires ctx.svc in s.services && Iterates(s, d, order) && available < s.services[ctx.svc].def.memory
    ensures var (r, answer) := MakeRoom(s, d, ctx, available, order, now);
            var stopped := StoppedNames(s, d, ctx, available, order, now);
            && (forall n :: n in stopped ==> n in r.services && r.services[n].status == Stopped)
            && d in r.devices && r.devices[d].running == s.devices[d].running - (set n | n in stopped)
            && r.devices[d].pending == if answer == Enough && ctx.Auto? && stopped != []
                                       then s.devices[d].pending[ctx.sid := stopped] else s.devices[d].pending
  {
    var stopped := StoppedNames(s, d, ctx, available, order, now);
    var r := StopsOf(s, d, ctx, available, order, now);
    StopsOfDoes(s, d, ctx, available, order, now);
    var enough := available + MemorySum(s.services, stopped) >= s.services[ctx.svc].def.memory;
    AfterStopsDoes(r, d, ctx, stopped, enough);
    assert MakeRoom(s, d, ctx, available, order, now) == AfterStops(r, d, ctx, stopped, enough);
  }

  lemma StoppedShortest(s: Store, d: Name, ctx: Context, available: int, order: seq<Name>, now: Time)
    requires ctx.svc in s.services
    ensures var todo := Selected(s, d, ctx.svc, order, now).1;
            var stopped := StoppedNames(s, d, ctx, available, order, now);
            && stopped <= todo
            && (available < s.services[ctx.svc].def.memory ==>
                  && (forall j :: 0 <= j < |stopped| ==> available + MemorySum(s.services, todo[..j]) < s.services[ctx.svc].def.memory)
                  && (available + MemorySum(s.services, stopped) < s.services[ctx.svc].def.memory ==> stopped == todo))
  {
    var todo := Selected(s, d, ctx.svc, order, now).1;
    NeededIsShortest(s.services, todo, 0, available, s.services[ctx.svc].def.memory);
    assert todo[..0] == [] && todo[..|todo|] == todo;
  }

  // The answer of a call that had to make room.
  lemma AnswerIs(s: Store, d: Name, ctx: Context, available: int, order: seq<Name>, now: Time)
    requires ctx.svc in s.services && Iterates(s, d, order) && available < s.services[ctx.svc].def.memory
    ensures var answer := MakeRoom(s, d, ctx, available, order, now).1;
            var stopped := StoppedNames(s, d, ctx, available, order, now);
            if available + MemorySum(s.services, stopped) >= s.services[ctx.svc].def.memory then answer == Enough
            else answer == if BusyPeer(s, d, ctx.svc) then Blocked else Insufficient
  {
    StopsOfBusy(s, d, ctx, available, order, now);
  }

  /** Greedy reclaim. When the device has room at once nothing happens. Otherwise the shortest
      sufficient prefix of the candidates is stopped; if none suffices all candidates are, and the
      answer is to wait exactly if a peer of the device had a request in flight, else an error. */
  lemma ReclaimedGreedily(s: Store, d: Name, ctx: Context, available: int, order: seq<Name>, now: Time)
    requires ctx.svc in s.services && Iterates(s, d, order)
    ensures var (r, answer) := MakeRoom(s, d, ctx, available, order, now);
            var todo := Selected(s, d, ctx.svc, order, now).1;
            var stopped := StoppedNames(s, d, ctx, available, order, now);
            var required := s.services[ctx.svc].def.memory;
            && (available >= required ==> r == s && answer == Enough)
            && (available < required ==>
                  && stopped <= todo
                  && (forall j :: 0 <= j < |stopped| ==> available + MemorySum(s.services, todo[..j]) < required)
                  && (answer == Enough <==> available + MemorySum(s.services, stopped) >= required)
                  && (answer != Enough ==> stopped == todo && (answer == Blocked <==> BusyPeer(s, d, ctx.svc))))
  {
    StoppedShortest(s, d, ctx, available, order, now);
    if available < s.services[ctx.svc].def.memory {
      AnswerIs(s, d, ctx, available, order, now);
    }
  }
}
