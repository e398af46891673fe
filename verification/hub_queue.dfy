/** First in, first out: what workers take off a device's queue, and what still waits there, are the
    sessions that were accepted for it, in the order in which they were. */
module HubQueue {
  import opened Behaviours
  import opened Wrappers
  import opened HubTypes
  import opened HubStore
  import opened HubScheduler
  import opened HubMachine
  import opened HubDispatch
  import opened HubSteps
  import opened HubSlots
  import opened HubSafety
  import opened HubEnds
  import opened HubHandlers

  type Entry = (Name, SessionId)

  // What the step takes off the queue of the device.
  function Took(h: Hub, e: Event, d: Name): seq<Entry> {
    if e.Dequeue? && HasWork(h, e.t) && e.t.device == d then [h.queues[d][0]] else []
  }

  // A request for a known service and a new session, while a slot of the device is left.
  predicate Accepts(h: Hub, e: Event, m: Moment) {
    && e.Submit? && e.svc in h.store.services && e.sid !in h.store.sessions && h.store.services[e.svc].def.device in h.queues
    && SlotLeft(h.store, h.store.services[e.svc].def.device, m.now)
  }

  function Added(h: Hub, e: Event, m: Moment, d: Name): seq<Entry> {
    if Accepts(h, e, m) && h.store.services[e.svc].def.device == d then [(e.svc, e.sid)] else []
  }

  lemma SubmittedIs(h: Hub, svc: Name, sid: SessionId, m: Moment)
    ensures var r := Submitted(h, svc, sid, m);
            && r.queues.Keys == h.queues.Keys
            && forall d :: d in h.queues ==> r.queues[d] == h.queues[d] + Added(h, Submit(svc, sid), m, d)
  {
    if svc in h.store.services {
      PrunedIs(h.store, h.store.services[svc].def.device, m.now);
    }
  }

  /** A request is accepted exactly if a slot of its device is left; then its session is QUEUED and its
      service's queue one longer, and otherwise no session is there. */
  lemma SubmitStep(h: Hub, svc: Name, sid: SessionId, m: Moment)
    requires Shape(h) && svc in h.store.services && sid !in h.store.sessions && h.store.services[svc].def.device in h.queues
    ensures var r := Step(h, Submit(svc, sid), m).store;
            if Accepts(h, Submit(svc, sid), m)
            then && r.sessions == h.store.sessions[sid := SessionRecord(svc, Queued, m.now, None, None)]
                 && r.services == h.store.services[svc := h.store.services[svc].(queueSize := h.store.services[svc].queueSize + 1)]
            else r.sessions == h.store.sessions && r.services == h.store.services
  {
    PrunedIs(h.store, h.store.services[svc].def.device, m.now);
  }

  ghost predicate QueuesMove(h: Hub, e: Event, m: Moment, r: Hub) {
    && r.queues.Keys == h.queues.Keys
    && forall d :: d in h.queues ==> Took(h, e, d) + r.queues[d] == h.queues[d] + Added(h, e, m, d)
  }

  lemma QueuesStay(h: Hub, e: Event, m: Moment, r: Hub)
    requires r.queues == h.queues && !e.Submit? && !(e.Dequeue? && HasWork(h, e.t))
    ensures QueuesMove(h, e, m, r)
  {
    forall d | d in h.queues
      ensures [] + r.queues[d] == h.queues[d] + []
    {
    }
  }

  lemma DequeueMoves(h: Hub, t: TaskId, m: Moment, r: Hub)
    requires HasWork(h, t) && r.queues == h.queues[t.device := h.queues[t.device][1..]]
    ensures QueuesMove(h, Dequeue(t), m, r)
  {
    forall d | d in h.queues
      ensures Took(h, Dequeue(t), d) + r.queues[d] == h.queues[d] + []
    {
    }
  }

  // A request to the store moves no queue.
  lemma RequestQueues(h: Hub, e: Event, m: Moment)
    requires Shape(h) && (e.TouchLease? || e.ReserveLease? || e.ReleaseLease? || e.CleanupTick? || e.LookAt?)
    ensures Step(h, e, m).queues == h.queues
  {
  }

  lemma DequeueQueues(h: Hub, t: TaskId, m: Moment)
    requires Sound(h) && HasWork(h, t)
    ensures Dequeued(h, t, m).queues == h.queues[t.device := h.queues[t.device][1..]]
  {
    assert KnownContext(h.store, t.device, Auto(h.queues[t.device][0].0, h.queues[t.device][0].1));
    DequeuedRuns(h, t, m, EventScope(h, Dequeue(t)));
  }

  lemma KindQueues(h: Hub, e: Event, r: Hub)
    requires OfRunKinds(h, e, r) && Popped(h, e) == h
    ensures r.queues == h.queues
  {
  }

  lemma TaskQueues(h: Hub, e: Event, m: Moment)
    requires Sound(h) && !e.Submit? && !(e.Dequeue? && HasWork(h, e.t))
    requires !(e.TouchLease? || e.ReserveLease? || e.ReleaseLease? || e.CleanupTick? || e.LookAt?)
    ensures Step(h, e, m).queues == h.queues
  {
    if e.HttpStart? || e.HttpStop? || e.HttpStopped? || e.HttpProbe? || e.HttpProbed? {
      HttpKind(h, e, m);
    } else {
      WorkerKind(h, e, m);
    }
    KindQueues(h, e, Step(h, e, m));
  }

  lemma OtherQueues(h: Hub, e: Event, m: Moment)
    requires Sound(h) && !e.Submit? && !(e.Dequeue? && HasWork(h, e.t))
    ensures QueuesMove(h, e, m, Step(h, e, m))
  {
    if e.TouchLease? || e.ReserveLease? || e.ReleaseLease? || e.CleanupTick? || e.LookAt? {
      RequestQueues(h, e, m);
    } else {
      TaskQueues(h, e, m);
    }
    QueuesStay(h, e, m, Step(h, e, m));
  }

  lemma SubmitMoves(h: Hub, svc: Name, sid: SessionId, m: Moment)
    ensures QueuesMove(h, Submit(svc, sid), m, Submitted(h, svc, sid, m))
  {
    SubmittedIs(h, svc, sid, m);
  }

  // Every step takes from the front of the queues and adds behind.
  lemma StepQueues(h: Hub, e: Event, m: Moment)
    requires Invariant(h)
    ensures QueuesMove(h, e, m, Step(h, e, m))
  {
    if e.Submit? {
      SubmitMoves(h, e.svc, e.sid, m);
    } else if e.Dequeue? && HasWork(h, e.t) {
      DequeueQueues(h, e.t, m);
      DequeueMoves(h, e.t, m, Step(h, e, m));
    } else {
      OtherQueues(h, e, m);
    }
  }

  // -- over whole runs --------------------------------------------------------------------

  // All that a run takes off the queue of the device, and all that it adds to it.
  ghost function TakenOver(h: Hub, steps: seq<(Event, Moment)>, d: Name): seq<Entry>
    decreases |steps|
  {
    if steps == [] then [] else Took(h, steps[0].0, d) + TakenOver(Next(h, steps[0]), steps[1..], d)
  }

  ghost function AddedOver(h: Hub, steps: seq<(Event, Moment)>, d: Name): seq<Entry>
    decreases |steps|
  {
    if steps == [] then [] else Added(h, steps[0].0, steps[0].1, d) + AddedOver(Next(h, steps[0]), steps[1..], d)
  }

  lemma Conserved(taken: seq<Entry>, later: seq<Entry>, queue: seq<Entry>, mid: seq<Entry>, end: seq<Entry>, added: seq<Entry>, more: seq<Entry>)
    requires taken + mid == queue + added && later + end == mid + more
    ensures (taken + later) + end == queue + (added + more)
  {
    assert (taken + later) + end == taken + (later + end) == (taken + mid) + more == queue + (added + more);
  }

  /** First in, first out, over any run: what was queued and then accepted for a device is exactly what
      its workers took, in that order, followed by what still waits. */
  lemma {:induction false} QueueIsFifo(h: Hub, steps: seq<(Event, Moment)>, d: Name)
    requires Invariant(h) && d in h.queues
    ensures d in Reached(h, steps).queues
    ensures TakenOver(h, steps, d) + Reached(h, steps).queues[d] == h.queues[d] + AddedOver(h, steps, d)
    decreases |steps|
  {
    if steps != [] {
      var (e, m) := steps[0];
      var mid := Next(h, steps[0]);
      StepQueues(h, e, m);
      StepKeepsInvariant(h, e, m);
      QueueIsFifo(mid, steps[1..], d);
      Conserved(Took(h, e, d), TakenOver(mid, steps[1..], d), h.queues[d], mid.queues[d], Reached(mid, steps[1..]).queues[d],
                Added(h, e, m, d), AddedOver(mid, steps[1..], d));
    }
  }
}
