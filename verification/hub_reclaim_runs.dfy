/** The reclaim loop of the protocol and greedy reclaim are one: when nothing else happens, the run
    of successful stops ends in the store that greedy reclaim says. */
module HubReclaimRuns {
  import opened Wrappers
  import opened HubTypes
  import opened HubStore
  import opened HubScheduler
  import opened HubMachine
  import opened HubSteps
  import opened HubSlots
  import opened HubSafety
  import opened HubLoad
  import opened HubClaims
  import opened HubReclaim
  import opened Seqs

  // n stop commands in a row, all successful, while the clock stands.
  function Stops(t: TaskId, m: Moment, n: nat): seq<(Event, Moment)> {
    if n == 0 then [] else [(ReclaimStopped(t, Succeeds), m)] + Stops(t, m, n - 1)
  }

  // One call of the loop for task t: the candidates, the store and the memory known to be free
  // after each number of stops.
  datatype Call = Call(h: Hub, t: TaskId, d: Name, ctx: Context, deadline: Time, todo: seq<Name>,
                       stores: seq<Store>, frees: seq<int>, required: int, now: Time)

  // Candidate j is stopped next.
  ghost predicate Link(c: Call, j: nat)
    requires j < |c.todo| && |c.stores| == |c.frees| == |c.todo| + 1
  {
    && Fits(c, c.stores[j]) && Fits(c, c.stores[j + 1]) && c.todo[j] in c.stores[j].services
    && c.stores[j + 1] == StopForReclaim(c.stores[j], c.ctx, c.todo[j], c.now)
    && c.frees[j + 1] == c.frees[j] + Memory(c.stores[j + 1].services, c.todo[j])
  }

  // What the call refers to is in the store.
  ghost predicate Fits(c: Call, s: Store) {
    && c.d in s.devices && c.ctx.svc in s.services && (c.ctx.Auto? ==> c.ctx.sid in s.sessions)
    && s.services[c.ctx.svc].def.device == c.d && s.services[c.ctx.svc].def.memory == c.required
  }

  ghost predicate Traced(c: Call) {
    && |c.stores| == |c.frees| == |c.todo| + 1 && c.t in c.h.tasks && (c.t.Worker? ==> c.t.device == c.d)
    && (forall j: nat {:trigger Link(c, j)} :: j < |c.todo| ==> Link(c, j))
  }

  // The hub while candidate j is being stopped.
  function AtStop(c: Call, j: nat): Hub
    requires j < |c.todo| && |c.stores| == |c.frees| == |c.todo| + 1
  {
    SetTask(c.h.(store := c.stores[j]), c.t, Reclaiming(c.ctx, c.deadline, c.todo[j..], c.frees[j], c.todo[..j]))
  }

  // The hub behind the call: room, or the pause of the capacity loop.
  function Behind(c: Call, r: Store, enough: bool): Hub
    requires Fits(c, r)
  {
    if enough then Admit(c.h.(store := r), c.t, c.d, c.ctx) else SetTask(c.h.(store := r), c.t, Polling(c.ctx, c.deadline))
  }

  lemma TasksTwice(h: Hub, t: TaskId, a: Task, b: Task)
    ensures SetTask(SetTask(h, t, a), t, b) == SetTask(h, t, b)
  {
    assert h.tasks[t := a][t := b] == h.tasks[t := b];
  }

  lemma AdmitTwice(h: Hub, t: TaskId, a: Task, d: Name, ctx: Context)
    requires d in h.store.devices && ctx.svc in h.store.services && (ctx.Auto? ==> ctx.sid in h.store.sessions)
    ensures Admit(SetTask(h, t, a), t, d, ctx) == Admit(h, t, d, ctx)
  {
    TasksTwice(h, t, a, Launching(ctx));
  }

  // -- one stop ---------------------------------------------------------------------------

  lemma StopIs(h: Hub, t: TaskId, m: Moment)
    requires Shape(h) && t in h.tasks && h.tasks[t].Reclaiming?
    ensures KnownTask(h.store, TaskDevice(h, t), h.tasks[t])
    ensures Step(h, ReclaimStopped(t, Succeeds), m) == Reclaimed(h, t, Succeeds, m)
  {
  }

  // The task at its stop, with what it refers to there.
  ghost predicate Stands(c: Call, j: nat, m: Moment) {
    && Traced(c) && j < |c.todo| && m.now == c.now && TaskDevice(AtStop(c, j), c.t) == c.d
    && KnownTask(c.stores[j], c.d, AtStop(c, j).tasks[c.t])
  }

  lemma StandsHere(c: Call, j: nat, m: Moment)
    requires Traced(c) && j < |c.todo| && m.now == c.now && Shape(AtStop(c, j))
    ensures Stands(c, j, m)
  {
    assert Link(c, j);
    StopIs(AtStop(c, j), c.t, m);
  }

  lemma ReclaimedIs(c: Call, j: nat, m: Moment)
    requires Stands(c, j, m)
    ensures Fits(c, c.stores[j + 1])
    ensures Reclaimed(AtStop(c, j), c.t, Succeeds, m)
         == ReclaimOn(AtStop(c, j).(store := c.stores[j + 1]), c.t, c.d, c.ctx, c.deadline, c.todo[j..], c.frees[j + 1], c.todo[..j + 1])
  {
    assert Link(c, j);
    assert c.todo[j..][0] == c.todo[j] && c.todo[..j] + [c.todo[j]] == c.todo[..j + 1];
  }

  // What greedy reclaim leaves when k candidates were stopped.
  function Left(c: Call, k: nat, enough: bool): Store
    requires k <= |c.todo| && k < |c.stores|
  {
    AfterStops(c.stores[k], c.d, c.ctx, c.todo[..k], enough).0
  }

  lemma EnoughNow(c: Call, j: nat, m: Moment)
    requires Stands(c, j, m) && c.frees[j + 1] >= c.required
    ensures Fits(c, Left(c, j + 1, true))
    ensures Reclaimed(AtStop(c, j), c.t, Succeeds, m) == Behind(c, Left(c, j + 1, true), true)
  {
    ReclaimedIs(c, j, m);
    assert c.todo[..j + 1] != [];
    AdmitTwice(c.h.(store := Left(c, j + 1, true)), c.t, AtStop(c, j).tasks[c.t], c.d, c.ctx);
  }

  lemma GoesOn(c: Call, j: nat, m: Moment)
    requires Stands(c, j, m) && c.frees[j + 1] < c.required && j + 1 < |c.todo|
    ensures Reclaimed(AtStop(c, j), c.t, Succeeds, m) == AtStop(c, j + 1)
  {
    ReclaimedIs(c, j, m);
    assert c.todo[j..][1..] == c.todo[j + 1..];
    TasksTwice(c.h.(store := c.stores[j + 1]), c.t, AtStop(c, j).tasks[c.t], AtStop(c, j + 1).tasks[c.t]);
  }

  lemma NoneLeft(c: Call, j: nat, m: Moment)
    requires Stands(c, j, m) && c.frees[j + 1] < c.required && j + 1 == |c.todo|
    ensures Fits(c, Left(c, j + 1, false))
    ensures Reclaimed(AtStop(c, j), c.t, Succeeds, m) == Behind(c, Left(c, j + 1, false), false)
  {
    ReclaimedIs(c, j, m);
    TasksTwice(c.h.(store := c.stores[j + 1]), c.t, AtStop(c, j).tasks[c.t], Polling(c.ctx, c.deadline));
  }

  // -- all stops --------------------------------------------------------------------------

  // k is how many stops are needed.
  ghost predicate Needs(c: Call, k: nat)
    requires Traced(c)
  {
    && k <= |c.todo| && (forall i :: 0 < i < k ==> c.frees[i] < c.required)
    && (c.frees[k] < c.required ==> k == |c.todo|)
  }

  ghost predicate LeadsTo(c: Call, from: Hub, k: nat, m: Moment, n: nat)
    requires Traced(c) && k <= |c.todo|
  {
    && Fits(c, Left(c, k, c.frees[k] >= c.required))
    && Reached(from, Stops(c.t, m, n)) == Behind(c, Left(c, k, c.frees[k] >= c.required), c.frees[k] >= c.required)
  }

  lemma Unrolls(h: Hub, t: TaskId, m: Moment, n: nat, next: Hub)
    requires Invariant(h) && n > 0 && t in h.tasks && h.tasks[t].Reclaiming? && KnownTask(h.store, TaskDevice(h, t), h.tasks[t])
    requires Reclaimed(h, t, Succeeds, m) == next
    ensures Invariant(next) && Reached(h, Stops(t, m, n)) == Reached(next, Stops(t, m, n - 1))
  {
    StopIs(h, t, m);
    ReachedStep(h, ReclaimStopped(t, Succeeds), m, Stops(t, m, n - 1));
  }

  lemma LastStop(c: Call, j: nat, m: Moment)
    requires Traced(c) && j < |c.todo| && Invariant(AtStop(c, j)) && m.now == c.now && Needs(c, j + 1)
    ensures LeadsTo(c, AtStop(c, j), j + 1, m, 1)
  {
    StandsHere(c, j, m);
    if c.frees[j + 1] >= c.required {
      EnoughNow(c, j, m);
      Unrolls(AtStop(c, j), c.t, m, 1, Behind(c, Left(c, j + 1, true), true));
    } else {
      NoneLeft(c, j, m);
      Unrolls(AtStop(c, j), c.t, m, 1, Behind(c, Left(c, j + 1, false), false));
    }
  }

  lemma OneStop(c: Call, j: nat, m: Moment, n: nat) returns (next: Hub)
    requires Traced(c) && j + 1 < |c.todo| && Invariant(AtStop(c, j)) && m.now == c.now && c.frees[j + 1] < c.required && n > 0
    ensures next == AtStop(c, j + 1) && Invariant(next) && Reached(AtStop(c, j), Stops(c.t, m, n)) == Reached(next, Stops(c.t, m, n - 1))
  {
    next := AtStop(c, j + 1);
    StandsHere(c, j, m);
    GoesOn(c, j, m);
    Unrolls(AtStop(c, j), c.t, m, n, next);
  }

  lemma LeadsBack(c: Call, from: Hub, next: Hub, k: nat, m: Moment, n: nat)
    requires Traced(c) && k <= |c.todo| && n > 0 && LeadsTo(c, next, k, m, n - 1)
    requires Reached(from, Stops(c.t, m, n)) == Reached(next, Stops(c.t, m, n - 1))
    ensures LeadsTo(c, from, k, m, n)
  {
  }

  // Candidate j is being stopped, and k of them are needed.
  ghost predicate Stopping(c: Call, from: Hub, j: nat, k: nat, m: Moment) {
    Traced(c) && j < k && Needs(c, k) && from == AtStop(c, j) && Invariant(from) && m.now == c.now
  }

  lemma LastLeads(c: Call, from: Hub, j: nat, k: nat, m: Moment)
    requires Stopping(c, from, j, k, m) && k == j + 1
    ensures LeadsTo(c, from, k, m, 1)
  {
    LastStop(c, j, m);
  }

  lemma NextStops(c: Call, from: Hub, j: nat, k: nat, m: Moment, n: nat) returns (next: Hub)
    requires Stopping(c, from, j, k, m) && j + 1 < k && n > 0
    ensures Stopping(c, next, j + 1, k, m) && Reached(from, Stops(c.t, m, n)) == Reached(next, Stops(c.t, m, n - 1))
  {
    next := OneStop(c, j, m, n);
  }

  lemma {:induction false} StopsLead(c: Call, from: Hub, j: nat, k: nat, m: Moment, n: nat)
    requires Stopping(c, from, j, k, m) && n == k - j
    ensures Traced(c) && k <= |c.todo| && LeadsTo(c, from, k, m, n)
    decreases n
  {
    if n == 1 {
      LastLeads(c, from, j, k, m);
    } else {
      var next := NextStops(c, from, j, k, m, n);
      StopsLead(c, next, j + 1, k, m, n - 1);
      LeadsBack(c, from, next, k, m, n);
    }
  }

  // -- from the look at the memory on -----------------------------------------------------

  lemma {:induction false} StoppedAllSame(s: Store, ctx: Context, names: seq<Name>, now: Time)
    requires AllKnown(s, names)
    ensures var r := StoppedAll(s, ctx, names, now);
            && r.devices.Keys == s.devices.Keys && r.sessions == s.sessions && r.services.Keys == s.services.Keys
            && forall n :: n in s.services ==> r.services[n].def == s.services[n].def
  {
    if names != [] {
      assert names == names[..|names| - 1] + [names[|names| - 1]];
      assert names[|names| - 1] in names;
      StoppedAllSame(s, ctx, names[..|names| - 1], now);
    }
  }

  // The store after the first j stops, and the memory that is known to be free then.
  function StoreAfter(swept: Store, ctx: Context, todo: seq<Name>, j: int, now: Time): Store {
    if 0 <= j <= |todo| && AllKnown(swept, todo) then
      assert forall n :: n in todo[..j] ==> n in todo;
      StoppedAll(swept, ctx, todo[..j], now)
    else swept
  }

  function FreeAfter(services: map<Name, ServiceRuntime>, todo: seq<Name>, available: int, j: int): int {
    if 0 <= j <= |todo| then available + MemorySum(services, todo[..j]) else available
  }

  function CallOf(h: Hub, t: TaskId, d: Name, ctx: Context, deadline: Time, available: int, m: Moment): Call
    requires ctx.svc in h.store.services
  {
    var (swept, todo) := Selected(h.store, d, ctx.svc, m.order, m.now);
    Call(h, t, d, ctx, deadline, todo,
         seq(|todo| + 1, j => StoreAfter(swept, ctx, todo, j, m.now)),
         seq(|todo| + 1, j => FreeAfter(h.store.services, todo, available, j)),
         h.store.services[ctx.svc].def.memory, m.now)
  }

  lemma NextStore(swept: Store, ctx: Context, todo: seq<Name>, j: nat, now: Time)
    requires AllKnown(swept, todo) && j < |todo|
    ensures todo[j] in StoreAfter(swept, ctx, todo, j, now).services
    ensures StoreAfter(swept, ctx, todo, j + 1, now) == StopForReclaim(StoreAfter(swept, ctx, todo, j, now), ctx, todo[j], now)
  {
    assert todo[..j + 1][..j] == todo[..j] && todo[..j + 1][j] == todo[j];
    assert todo[j] in todo;
  }

  lemma NextFree(services: map<Name, ServiceRuntime>, todo: seq<Name>, available: int, j: nat)
    requires j < |todo|
    ensures FreeAfter(services, todo, available, j + 1) == FreeAfter(services, todo, available, j) + Memory(services, todo[j])
  {
    assert todo[..j + 1][..j] == todo[..j] && todo[..j + 1][j] == todo[j];
  }

  lemma StoreAfterSame(swept: Store, ctx: Context, todo: seq<Name>, j: nat, now: Time)
    requires AllKnown(swept, todo) && j <= |todo|
    ensures var r := StoreAfter(swept, ctx, todo, j, now);
            && r.devices.Keys == swept.devices.Keys && r.sessions == swept.sessions && r.services.Keys == swept.services.Keys
            && forall n :: n in swept.services ==> r.services[n].def == swept.services[n].def
  {
    assert forall n :: n in todo[..j] ==> n in todo;
    StoppedAllSame(swept, ctx, todo[..j], now);
  }

  // The task waits for room on its device.
  ghost predicate Waits(h: Hub, t: TaskId, d: Name, ctx: Context, deadline: Time, m: Moment) {
    && t in h.tasks && h.tasks[t] == Polling(ctx, deadline) && TaskDevice(h, t) == d && Tracked(h.cfg, h.store, d)
    && ctx.svc in h.store.services && h.store.services[ctx.svc].def.device == d && (ctx.Auto? ==> ctx.sid in h.store.sessions)
    && m.now < deadline && Available(h, d) < h.store.services[ctx.svc].def.memory
    && forall n :: n in m.order ==> n in h.store.services
  }

  lemma FitsAfter(h: Hub, t: TaskId, d: Name, ctx: Context, deadline: Time, m: Moment, j: nat)
    requires Waits(h, t, d, ctx, deadline, m)
    requires var c := CallOf(h, t, d, ctx, deadline, Available(h, d), m); j <= |c.todo|
    ensures var c := CallOf(h, t, d, ctx, deadline, Available(h, d), m);
            Fits(c, c.stores[j]) && SameSizes(h.store.services, c.stores[j].services)
  {
    var (swept, todo) := Selected(h.store, d, ctx.svc, m.order, m.now);
    SelectedKnown(h.store, d, ctx.svc, m.order, m.now);
    SelectedSame(h.store, d, ctx.svc, m.order, m.now);
    StoreAfterSame(swept, ctx, todo, j, m.now);
  }

  lemma LinkOf(h: Hub, t: TaskId, d: Name, ctx: Context, deadline: Time, m: Moment, j: nat)
    requires Waits(h, t, d, ctx, deadline, m) && j < |CallOf(h, t, d, ctx, deadline, Available(h, d), m).todo|
    ensures Link(CallOf(h, t, d, ctx, deadline, Available(h, d), m), j)
  {
    var (swept, todo) := Selected(h.store, d, ctx.svc, m.order, m.now);
    SelectedKnown(h.store, d, ctx.svc, m.order, m.now);
    FitsAfter(h, t, d, ctx, deadline, m, j);
    FitsAfter(h, t, d, ctx, deadline, m, j + 1);
    NextStore(swept, ctx, todo, j, m.now);
    NextFree(h.store.services, todo, Available(h, d), j);
  }

  lemma CallTraced(h: Hub, t: TaskId, d: Name, ctx: Context, deadline: Time, m: Moment)
    requires Waits(h, t, d, ctx, deadline, m)
    ensures Traced(CallOf(h, t, d, ctx, deadline, Available(h, d), m))
  {
    var c := CallOf(h, t, d, ctx, deadline, Available(h, d), m);
    forall j: nat | j < |c.todo|
      ensures Link(c, j)
    {
      LinkOf(h, t, d, ctx, deadline, m, j);
    }
  }

  lemma CallNeeds(h: Hub, t: TaskId, d: Name, ctx: Context, deadline: Time, m: Moment)
    requires Waits(h, t, d, ctx, deadline, m)
    ensures var c := CallOf(h, t, d, ctx, deadline, Available(h, d), m);
            Traced(c) && Needs(c, Needed(h.store.services, c.todo, 0, Available(h, d), c.required))
  {
    var c := CallOf(h, t, d, ctx, deadline, Available(h, d), m);
    CallTraced(h, t, d, ctx, deadline, m);
    NeededIsShortest(h.store.services, c.todo, 0, Available(h, d), c.required);
  }

  // The look at the memory: the first candidate is being stopped, or there is none.
  lemma LookIs(h: Hub, t: TaskId, d: Name, ctx: Context, deadline: Time, m: Moment)
    requires Shape(h) && Waits(h, t, d, ctx, deadline, m)
    ensures var (swept, todo) := Selected(h.store, d, ctx.svc, m.order, m.now);
            Step(h, Wake(t), m) == SetTask(h.(store := swept), t,
              if todo == [] then Polling(ctx, deadline) else Reclaiming(ctx, deadline, todo, Available(h, d), []))
  {
    assert Step(h, Wake(t), m) == Poll(h, t, d, ctx, deadline, m);
    assert Poll(h, t, d, ctx, deadline, m) == LookForRoom(h, t, d, ctx, deadline, m);
  }

  lemma FirstStop(h: Hub, t: TaskId, d: Name, ctx: Context, deadline: Time, m: Moment)
    requires Shape(h) && Waits(h, t, d, ctx, deadline, m)
    ensures var c := CallOf(h, t, d, ctx, deadline, Available(h, d), m);
            if c.todo == [] then Fits(c, Left(c, 0, false)) && c.frees[0] < c.required && Step(h, Wake(t), m) == Behind(c, Left(c, 0, false), false)
            else Step(h, Wake(t), m) == AtStop(c, 0)
  {
    var c := CallOf(h, t, d, ctx, deadline, Available(h, d), m);
    LookIs(h, t, d, ctx, deadline, m);
    SelectedKnown(h.store, d, ctx.svc, m.order, m.now);
    SelectedSame(h.store, d, ctx.svc, m.order, m.now);
    assert c.todo[..0] == [] && c.todo[0..] == c.todo;
    assert c.stores[0] == Selected(h.store, d, ctx.svc, m.order, m.now).0 && c.frees[0] == Available(h, d);
  }

  // What greedy reclaim says of the same call.
  lemma RoomIs(h: Hub, t: TaskId, d: Name, ctx: Context, deadline: Time, m: Moment)
    requires Waits(h, t, d, ctx, deadline, m)
    ensures var c := CallOf(h, t, d, ctx, deadline, Available(h, d), m);
            var k := Needed(h.store.services, c.todo, 0, Available(h, d), c.required);
            && k <= |c.todo| && |StoppedNames(h.store, d, ctx, Available(h, d), m.order, m.now)| == k
            && var (r, answer) := MakeRoom(h.store, d, ctx, Available(h, d), m.order, m.now);
               r == Left(c, k, c.frees[k] >= c.required) && (answer == Enough <==> c.frees[k] >= c.required)
  {
    SelectedKnown(h.store, d, ctx.svc, m.order, m.now);
    SelectedSame(h.store, d, ctx.svc, m.order, m.now);
  }

  // The whole run of the call.
  function ReclaimRun(h: Hub, t: TaskId, d: Name, ctx: Context, m: Moment): seq<(Event, Moment)>
    requires ctx.svc in h.store.services && Tracked(h.cfg, h.store, d)
  {
    [(Wake(t), m)] + Stops(t, m, |StoppedNames(h.store, d, ctx, Available(h, d), m.order, m.now)|)
  }

  lemma NoStops(h: Hub, t: TaskId, m: Moment)
    ensures Reached(h, Stops(t, m, 0)) == h
  {
  }

  lemma LeadsNowhere(c: Call, next: Hub, m: Moment)
    requires Traced(c) && c.todo == [] && Fits(c, Left(c, 0, false)) && c.frees[0] < c.required && next == Behind(c, Left(c, 0, false), false)
    ensures LeadsTo(c, next, 0, m, 0)
  {
    NoStops(next, c.t, m);
  }

  lemma RunLeads(h: Hub, t: TaskId, d: Name, ctx: Context, deadline: Time, m: Moment, k: nat)
    requires Invariant(h) && Waits(h, t, d, ctx, deadline, m)
    requires k == |StoppedNames(h.store, d, ctx, Available(h, d), m.order, m.now)|
    requires var c := CallOf(h, t, d, ctx, deadline, Available(h, d), m); Traced(c) && Needs(c, k)
    ensures LeadsTo(CallOf(h, t, d, ctx, deadline, Available(h, d), m), Step(h, Wake(t), m), k, m, k)
  {
    FirstStop(h, t, d, ctx, deadline, m);
    StepKeepsInvariant(h, Wake(t), m);
    NeedsOne(h, t, d, ctx, deadline, m);
    var c := CallOf(h, t, d, ctx, deadline, Available(h, d), m);
    if c.todo == [] {
      LeadsNowhere(c, Step(h, Wake(t), m), m);
    } else {
      StopsLead(c, Step(h, Wake(t), m), 0, k, m, k);
    }
  }

  lemma NeedsOne(h: Hub, t: TaskId, d: Name, ctx: Context, deadline: Time, m: Moment)
    requires Waits(h, t, d, ctx, deadline, m)
    ensures |StoppedNames(h.store, d, ctx, Available(h, d), m.order, m.now)| > 0 <==> CallOf(h, t, d, ctx, deadline, Available(h, d), m).todo != []
  {
  }

  /** A worker or start request finds too little memory, and nothing else happens until its stop
      commands, all successful, are through: the hub is then as greedy reclaim says, with the
      service being launched if there is room, and back in the pause of the loop if there is not. */
  lemma ReclaimRunIsGreedy(h: Hub, t: TaskId, d: Name, ctx: Context, deadline: Time, m: Moment)
    requires Invariant(h) && Waits(h, t, d, ctx, deadline, m)
    ensures var (r, answer) := MakeRoom(h.store, d, ctx, Available(h, d), m.order, m.now);
            && d in r.devices && ctx.svc in r.services && (ctx.Auto? ==> ctx.sid in r.sessions)
            && Reached(h, ReclaimRun(h, t, d, ctx, m)) ==
               if answer == Enough then Admit(h.(store := r), t, d, ctx) else SetTask(h.(store := r), t, Polling(ctx, deadline))
  {
    var k := |StoppedNames(h.store, d, ctx, Available(h, d), m.order, m.now)|;
    RoomIs(h, t, d, ctx, deadline, m);
    CallNeeds(h, t, d, ctx, deadline, m);
    RunLeads(h, t, d, ctx, deadline, m, k);
    ReachedStep(h, Wake(t), m, Stops(t, m, k));
  }
}
