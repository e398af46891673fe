/** The device scheduler as an object over the state store: the reclaim loop, step by step. */
module HubSchedulerClass {
  import opened Wrappers
  import opened HubTypes
  import opened HubStore
  import opened HubScheduler
  import opened HubMachine
  import opened HubLoad
  import opened HubReclaim
  import opened HubStoreClass
  import opened Seqs

  class DeviceScheduler {
    const device: Name
    const store: InMemoryStateStore

    constructor (device: Name, store: InMemoryStateStore)
      ensures this.device == device && this.store == store
    {
      this.device, this.store := device, store;
    }

    // The services that may be stopped for the target; order is the order in which the running
    // set of the device is iterated.
    method SelectReclaimCandidates(target: Name, order: seq<Name>, now: Time) returns (candidates: seq<Name>)
      requires device in store.devices ==> Iterates(store.State(), device, order)
      modifies store
      ensures (store.State(), candidates) == Selected(old(store.State()), device, target, order, now)
      ensures InStopOrder(store.services, candidates)
    {
      if device !in store.devices {
        return [];
      }
      ghost var s := store.State();
      ghost var all := Sweep(s, Probed(s, device, target), now);
      candidates := [];
      assert Probed(s, device, target) * Elements(order[..0]) == {};
      NothingProbed(s, now);
      for i := 0 to |order|
        invariant store.State() == Sweep(s, Probed(s, device, target) * Elements(order[..i]), now)
        invariant candidates == Filter(n => Eligible(all, device, target, n), order[..i])
      {
        var n := order[i];
        ghost var done := Probed(s, device, target) * Elements(order[..i]);
        assert order[..i + 1] == order[..i] + [n];
        FilterSnoc(x => Eligible(all, device, target, x), order[..i], n);
        ProbeNext(s, device, target, order, i, now);
        if n != target && store.services[n].inflight <= 0 {
          var active := store.ServiceHasExternalActivity(n, now);
          EligibleNow(s, device, target, n, done, now);
          if !active && store.services[n].status in {Idle, Error} {
            candidates := candidates + [n];
          }
        }
      }
      assert order[..|order|] == order;
      assert Probed(s, device, target) * Elements(order) == Probed(s, device, target);
      CandidatesSorted(store.State(), device, target, order);
      var services := store.services;
      candidates := SortBy((a, b) => ReclaimedBefore(services, a, b), candidates);
    }

    method HasBusyReclaimBlocker(target: Name) returns (busy: bool)
      ensures busy == BusyPeer(store.State(), device, target)
    {
      var names := store.services.Keys;
      while names != {}
        invariant names <= store.services.Keys
        invariant forall n :: n in store.services && n !in names ==>
                    !(store.services[n].def.device == device && n != target && store.services[n].inflight > 0)
        decreases |names|
      {
        var n :| n in names;
        if store.services[n].def.device == device && n != target && store.services[n].inflight > 0 {
          return true;
        }
        names := names - {n};
      }
      return false;
    }

    // One turn of the reclaim loop: the service is stopped, and remembers for whom.
    method StopCandidate(ctx: Context, n: Name, now: Time) returns (freed: int)
      requires n in store.services
      modifies store
      ensures freed == old(store.services[n].def.memory)
      ensures store.State() == StopForReclaim(old(store.State()), ctx, n, now)
    {
      freed := store.services[n].def.memory;
      store.MarkServiceStopped(n, now);
      if ctx.Auto? {
        store.services := store.services[n := store.services[n].(reclaimedFor := store.services[n].reclaimedFor + {ctx.sid})];
      }
    }

    // The end of a call that found or made room.
    method NoteReclaimed(ctx: Context, reclaimed: seq<Name>)
      requires reclaimed != []
      modifies store
      ensures store.State() == AfterStops(old(store.State()), device, ctx, reclaimed, true).0
    {
      if ctx.Auto? && device in store.devices {
        store.devices := store.devices[device := store.devices[device].(pending := store.devices[device].pending[ctx.sid := reclaimed])];
      }
    }

    // available is what the device reports when the call begins.
    method EnsureMemoryCapacity(ctx: Context, available: int, order: seq<Name>, now: Time) returns (answer: Capacity)
      requires ctx.svc in store.services && (forall n :: n in order ==> n in store.services)
      requires device in store.devices ==> Iterates(store.State(), device, order)
      modifies store
      ensures (store.State(), answer) == MakeRoom(old(store.State()), device, ctx, available, order, now)
    {
      ghost var s := store.State();
      var required := store.services[ctx.svc].def.memory;
      if available >= required {
        return Enough;
      }
      var candidates := SelectReclaimCandidates(ctx.svc, order, now);
      SelectedKnown(s, device, ctx.svc, order, now);
      SelectedSizes(s, device, ctx.svc, order, now);
      var stopped, enough := StopUntilEnough(s, ctx, candidates, available, required, now);
      RoomMade(s, device, ctx, available, order, now, candidates, stopped, store.State(), enough);
      if enough {
        NoteReclaimed(ctx, stopped);
        return Enough;
      }
      var busy := HasBusyReclaimBlocker(ctx.svc);
      return if busy then Blocked else Insufficient;
    }

    // The reclaim loop.
    method StopUntilEnough(ghost s: Store, ctx: Context, candidates: seq<Name>, available: int, required: int, now: Time)
      returns (reclaimed: seq<Name>, enough: bool)
      requires available < required && AllKnown(store.State(), candidates) && SameSizes(s.services, store.services)
      modifies store
      ensures reclaimed == candidates[..Needed(s.services, candidates, 0, available, required)]
      ensures AllKnown(old(store.State()), reclaimed)
      ensures store.State() == StoppedAll(old(store.State()), ctx, reclaimed, now)
      ensures enough <==> available + MemorySum(s.services, reclaimed) >= required
      ensures enough ==> reclaimed != []
    {
      ghost var swept := store.State();
      var projected := available;
      reclaimed := [];
      StoppedNone(s, swept, ctx, candidates, available, required, now);
      for i := 0 to |candidates|
        invariant reclaimed == candidates[..i]
        invariant StoppedSoFar(s, swept, ctx, candidates, i, available, required, now, store.State(), projected)
      {
        StopNext(s, swept, ctx, candidates, i, available, required, now, store.State(), projected);
        var freed := StopCandidate(ctx, candidates[i], now);
        reclaimed := reclaimed + [candidates[i]];
        projected := projected + freed;
        if projected >= required {
          return reclaimed, true;
        }
      }
      StoppedLast(s, swept, ctx, candidates, available, required, now, store.State(), projected);
      return reclaimed, false;
    }
  }

  // The loop has stopped the first i candidates, and they were not enough.
  ghost predicate StoppedSoFar(s: Store, swept: Store, ctx: Context, todo: seq<Name>, i: nat, available: int, required: int,
                           now: Time, st: Store, projected: int)
  {
    && i <= |todo| && AllKnown(swept, todo) && AllKnown(swept, todo[..i])
    && st == StoppedAll(swept, ctx, todo[..i], now)
    && projected == available + MemorySum(s.services, todo[..i]) && projected < required
    && Needed(s.services, todo, 0, available, required) == Needed(s.services, todo, i, available, required)
  }

  lemma StoppedNone(s: Store, swept: Store, ctx: Context, todo: seq<Name>, available: int, required: int, now: Time)
    requires AllKnown(swept, todo) && available < required
    ensures StoppedSoFar(s, swept, ctx, todo, 0, available, required, now, swept, available)
  {
    assert todo[..0] == [];
  }

  lemma StoppedLast(s: Store, swept: Store, ctx: Context, todo: seq<Name>, available: int, required: int, now: Time, st: Store, projected: int)
    requires StoppedSoFar(s, swept, ctx, todo, |todo|, available, required, now, st, projected)
    ensures Needed(s.services, todo, 0, available, required) == |todo| && todo[..|todo|] == todo
    ensures available + MemorySum(s.services, todo) < required && st == StoppedAll(swept, ctx, todo, now)
  {
    assert todo[..|todo|] == todo;
  }

  // Stopping one more candidate: the loop goes on or ends here.
  lemma StopNext(s: Store, swept: Store, ctx: Context, todo: seq<Name>, i: nat, available: int, required: int, now: Time, st: Store, projected: int)
    requires StoppedSoFar(s, swept, ctx, todo, i, available, required, now, st, projected) && i < |todo| && SameSizes(s.services, swept.services)
    ensures todo[i] in st.services && AllKnown(swept, todo[..i + 1]) && todo[..i + 1] == todo[..i] + [todo[i]]
    ensures var freed := projected + st.services[todo[i]].def.memory;
            var next := StopForReclaim(st, ctx, todo[i], now);
            && next == StoppedAll(swept, ctx, todo[..i + 1], now) && freed == available + MemorySum(s.services, todo[..i + 1])
            && if freed >= required then Needed(s.services, todo, 0, available, required) == i + 1
               else StoppedSoFar(s, swept, ctx, todo, i + 1, available, required, now, next, freed)
  {
    assert todo[..i + 1][..i] == todo[..i];
    assert todo[i] in todo;
    StopsKeepSizes(swept, ctx, todo[..i], now);
  }

  // What the call comes to, once the loop is done.
  lemma RoomMade(s: Store, d: Name, ctx: Context, available: int, order: seq<Name>, now: Time,
                 todo: seq<Name>, stopped: seq<Name>, st: Store, enough: bool)
    requires ctx.svc in s.services && (forall n :: n in order ==> n in s.services) && available < s.services[ctx.svc].def.memory
    requires todo == Selected(s, d, ctx.svc, order, now).1
    requires stopped == todo[..Needed(s.services, todo, 0, available, s.services[ctx.svc].def.memory)]
    requires AllKnown(Selected(s, d, ctx.svc, order, now).0, stopped)
    requires st == StoppedAll(Selected(s, d, ctx.svc, order, now).0, ctx, stopped, now)
    requires enough <==> available + MemorySum(s.services, stopped) >= s.services[ctx.svc].def.memory
    ensures MakeRoom(s, d, ctx, available, order, now) == AfterStops(st, d, ctx, stopped, enough)
  {
    assert stopped == StoppedNames(s, d, ctx, available, order, now);
  }

  lemma SelectedSizes(s: Store, d: Name, target: Name, order: seq<Name>, now: Time)
    ensures SameSizes(s.services, Selected(s, d, target, order, now).0.services)
  {
  }

  lemma NothingProbed(s: Store, now: Time)
    ensures Sweep(s, {}, now) == s
  {
    SweptNone(s, now);
    assert s.services.Keys - s.services.Keys == {};
  }

  lemma {:induction false} StopsKeepSizes(s: Store, ctx: Context, names: seq<Name>, now: Time)
    requires AllKnown(s, names)
    ensures SameSizes(s.services, StoppedAll(s, ctx, names, now).services)
  {
    if names != [] {
      StopsKeepSizes(s, ctx, names[..|names| - 1], now);
    }
  }

  // One more running service is looked at: its expired leases are dropped if it is probed.
  lemma ProbeNext(s: Store, d: Name, target: Name, order: seq<Name>, i: nat, now: Time)
    requires Iterates(s, d, order) && i < |order|
    ensures var done := Probed(s, d, target) * Elements(order[..i]);
            var more := Probed(s, d, target) * Elements(order[..i + 1]);
            if order[i] in Probed(s, d, target) then Sweep(Sweep(s, done, now), {order[i]}, now) == Sweep(s, more, now)
            else more == done
  {
    var done := Probed(s, d, target) * Elements(order[..i]);
    var more := Probed(s, d, target) * Elements(order[..i + 1]);
    assert order[..i + 1] == order[..i] + [order[i]];
    assert order[i] !in order[..i];
    if order[i] in Probed(s, d, target) {
      assert more == done + {order[i]};
      SweepOneMore(s, done, order[i], now);
    } else {
      assert more == done;
    }
  }

  // Whether a probed service is eligible does not depend on the services probed after it.
  lemma EligibleNow(s: Store, d: Name, target: Name, n: Name, done: set<Name>, now: Time)
    requires d in s.devices && n in Probed(s, d, target) && n !in done
    ensures var r := Sweep(Sweep(s, done, now), {n}, now);
            var all := Sweep(s, Probed(s, d, target), now);
            Eligible(all, d, target, n) <==> !HasExternalActivity(Sweep(s, done, now), n, now) && r.services[n].status in {Idle, Error}
  {
  }
}
