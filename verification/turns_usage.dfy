/** With what usage a row is completed, told by the hook events alone: the counts of the outputs that
    reached its stash since the row was opened. */
module TurnsUsage {
  import opened Wrappers
  import opened Behaviours
  import opened Turns

  // The stash that a hook works on, if any; a new one counts from its making on.
  function Target(w: World, e: Event): Option<StashId>
    requires Sound(w)
  {
    match e
    case Resolve(key, route, _) => if route.Skip? || (route.Await? && route.task in w.waiting) then None else Some(Obtained(w, key).1)
    case Resume(task, outcome) => if task in w.waiting then Some(w.waiting[task].stash) else None
    case Output(key, _, _, _) => if key in w.table then Some(w.table[key]) else None
    case End(key) => if key in w.table then Some(w.table[key]) else None
    case Evict(_) => None
  }

  // The event opens a row on its stash, or makes the stash.
  predicate Resets(w: World, e: Event)
    requires Sound(w)
  {
    match e
    case Resolve(key, route, _) => route.Observe? || route.Direct? || key !in w.table
    case Resume(_, outcome) => outcome.Routed?
    case _ => false
  }

  // The counts the event brings to its stash.
  function Brings(e: Event): seq<Usage> {
    if e.Output? && HasUsage(e.usage) then [e.usage] else []
  }

  // The counts that reached a stash by one event more.
  function HeardBy(w: World, e: Event, id: StashId, before: seq<Usage>): seq<Usage>
    requires Sound(w)
  {
    if Target(w, e) != Some(id) then before else if Resets(w, e) then [] else before + Brings(e)
  }

  // The counts that reached the stash since a row was last opened on it.
  ghost function Heard(events: seq<Event>, id: StashId): seq<Usage> {
    if events == [] then []
    else
      var init, last := events[..|events| - 1], events[|events| - 1];
      if Sound(Reached(init)) then HeardBy(Reached(init), last, id, Heard(init, id)) else Heard(init, id)
  }

  lemma {:induction false} AfterLast<S, E>(next: (S, E) -> S, s: S, events: seq<E>, e: E)
    ensures After(next, s, events + [e]) == next(After(next, s, events), e)
  {
    if events == [] {
      assert [e][1..] == [];
    } else {
      assert (events + [e])[1..] == events[1..] + [e];
      AfterLast(next, next(s, events[0]), events[1..], e);
    }
  }

  // -- one event --------------------------------------------------------------------------

  lemma FlushedSeen(w: World, id: StashId, x: StashId)
    requires id in w.stashes
    ensures SeenOn(Flushed(w, id), x) == SeenOn(w, x)
  {
  }

  lemma BegunSeen(w: World, id: StashId, ok: bool, x: StashId)
    requires id in w.stashes
    ensures SeenOn(Begun(w, id, ok), x) == if x == id then [] else SeenOn(w, x)
  {
    FlushedSeen(w, id, x);
  }

  lemma ObtainedSeen(w: World, key: Key, x: StashId)
    requires Sound(w)
    ensures var (w1, id) := Obtained(w, key);
            id in w1.stashes && SeenOn(w1, x) == if x == id && key !in w.table then [] else SeenOn(w, x)
  {
  }

  lemma ResolvedSeen(w: World, key: Key, route: Route, now: Time, x: StashId)
    requires Sound(w)
    ensures SeenOn(Resolved(w, key, route, now), x) == HeardBy(w, Resolve(key, route, now), x, SeenOn(w, x))
  {
    if !route.Skip? && !(route.Await? && route.task in w.waiting) {
      var (w1, id) := Obtained(w, key);
      ObtainedSeen(w, key, x);
      if route.Observe? {
        BegunSeen(Started(w1, id, now), id, route.ok, x);
      } else {
        var w2 := Started(Flushed(w1, id), id, now);
        FlushedSeen(w1, id, x);
        if route.Direct? {
          BegunSeen(w2, id, route.ok, x);
        }
      }
    }
  }

  lemma ResumedSeen(w: World, task: TaskId, outcome: Outcome, x: StashId)
    requires Sound(w)
    ensures SeenOn(Resumed(w, task, outcome), x) == HeardBy(w, Resume(task, outcome), x, SeenOn(w, x))
  {
    if task in w.waiting && outcome.Routed? {
      var id := w.waiting[task].stash;
      BegunSeen(Kept(w.(waiting := w.waiting - {task}), id), id, outcome.ok, x);
    }
  }

  lemma FedSeen(w: World, id: StashId, usage: Usage, failed: bool, x: StashId)
    requires id in w.stashes
    ensures SeenOn(Fed(w, id, usage, failed), x) == SeenOn(w, x) + if x == id && HasUsage(usage) then [usage] else []
  {
  }

  lemma CompletedSeen(w: World, id: StashId, last: Option<Usage>, x: StashId)
    requires id in w.stashes && w.stashes[id].request.Some?
    ensures SeenOn(Completed(w, id, last), x) == SeenOn(w, x)
  {
  }

  lemma OutputSeenOn(w: World, key: Key, usage: Usage, failed: bool, terminal: bool, x: StashId)
    requires Sound(w)
    ensures SeenOn(OutputSeen(w, key, usage, failed, terminal), x) == HeardBy(w, Output(key, usage, failed, terminal), x, SeenOn(w, x))
  {
    if key in w.table {
      var id := w.table[key];
      var w1 := Fed(w, id, usage, failed);
      FedSeen(w, id, usage, failed, x);
      if IsOpen(w1.stashes[id]) {
        CompletedSeen(w1, id, Some(usage), x);
      }
    }
  }

  lemma EndedSeen(w: World, key: Key, x: StashId)
    requires Sound(w)
    ensures SeenOn(Ended(w, key), x) == HeardBy(w, End(key), x, SeenOn(w, x))
  {
    if key in w.table {
      FlushedSeen(w, w.table[key], x);
    }
  }

  // The log of a stash grows and starts anew as the events say.
  lemma StepSeen(w: World, e: Event, x: StashId)
    requires Sound(w)
    ensures SeenOn(Step(w, e), x) == HeardBy(w, e, x, SeenOn(w, x))
  {
    match e
    case Resolve(key, route, now) => ResolvedSeen(w, key, route, now, x);
    case Resume(task, outcome) => ResumedSeen(w, task, outcome, x);
    case Output(key, usage, failed, terminal) => OutputSeenOn(w, key, usage, failed, terminal, x);
    case End(key) => EndedSeen(w, key, x);
    case Evict(now) =>
  }

  lemma {:induction false} SeenIsHeard(events: seq<Event>, id: StashId)
    ensures SeenOn(Reached(events), id) == Heard(events, id)
  {
    if events != [] {
      var init, last := events[..|events| - 1], events[|events| - 1];
      assert events == init + [last];
      SeenIsHeard(init, id);
      AfterLast(Next, EMPTY, init, last);
      InvariantReached(init);
      StepSeen(Reached(init), last, id);
    }
  }

  // -- the completions of one event -------------------------------------------------------

  // What the completing hook itself says of the usage: an output its own counts, a flush nothing.
  function LastWord(e: Event): Option<Usage> {
    if e.Output? then Some(e.usage) else None
  }

  // The event completes the row of its stash with what the stash has heard.
  ghost predicate Closes(w: World, e: Event, c: Completion)
    requires Sound(w)
  {
    && Target(w, e).Some? && Target(w, e).value in w.stashes && w.stashes[Target(w, e).value].request == Some(c.id)
    && c.seen == SeenOn(w, Target(w, e).value) + Brings(e) && c.usage == Merged(Sum(c.seen), LastWord(e))
  }

  ghost predicate ClosesAtMostOne(w: World, e: Event, r: World)
    requires Sound(w)
  {
    r.completed == w.completed || exists c :: Closes(w, e, c) && r.completed == w.completed + [c]
  }

  function CompletionOf(w: World, id: StashId, last: Option<Usage>): Completion
    requires id in w.stashes && w.stashes[id].request.Some?
  {
    Completion(w.stashes[id].request.value, Merged(w.stashes[id].tokens, last), SeenOn(w, id))
  }

  // What is open on the stash was open on it before, with the same counts.
  ghost predicate SameOpen(w: World, w1: World, id: StashId) {
    && id in w1.stashes && w1.completed == w.completed
    && (IsOpen(w1.stashes[id]) ==>
          id in w.stashes && w1.stashes[id].request == w.stashes[id].request && w1.stashes[id].tokens == w.stashes[id].tokens
          && SeenOn(w1, id) == SeenOn(w, id))
  }

  lemma FlushCloses(w: World, e: Event, w1: World, id: StashId, r: World)
    requires Invariant(w) && !e.Output? && Target(w, e) == Some(id)
    requires SameOpen(w, w1, id)
    requires r.completed == Flushed(w1, id).completed
    ensures ClosesAtMostOne(w, e, r)
  {
    if IsOpen(w1.stashes[id]) {
      var c := CompletionOf(w1, id, None);
      assert SeenOn(w, id) + [] == SeenOn(w, id);
      assert Closes(w, e, c);
    }
  }

  lemma ObtainedOpen(w: World, key: Key)
    requires Sound(w)
    ensures SameOpen(w, Obtained(w, key).0, Obtained(w, key).1)
  {
  }

  // With nothing open on the stash, opening a row completes none.
  lemma RoutingCloses(w: World, key: Key, id: StashId, route: Route)
    requires id in w.stashes && !IsOpen(w.stashes[id])
    ensures Routing(w, key, id, route).completed == w.completed
  {
  }

  lemma ObservedCloses(w: World, w1: World, key: Key, id: StashId, ok: bool, now: Time)
    requires Invariant(w) && Target(w, Resolve(key, Observe(ok), now)) == Some(id) && SameOpen(w, w1, id)
    ensures ClosesAtMostOne(w, Resolve(key, Observe(ok), now), Observing(w1, id, ok, now))
  {
    FlushCloses(w, Resolve(key, Observe(ok), now), Started(w1, id, now), id, Observing(w1, id, ok, now));
  }

  lemma RoutedCloses(w: World, w1: World, key: Key, id: StashId, route: Route, now: Time)
    requires Invariant(w) && Target(w, Resolve(key, route, now)) == Some(id) && SameOpen(w, w1, id)
    ensures ClosesAtMostOne(w, Resolve(key, route, now), Routing(Started(Flushed(w1, id), id, now), key, id, route))
  {
    var w2 := Started(Flushed(w1, id), id, now);
    RoutingCloses(w2, key, id, route);
    FlushCloses(w, Resolve(key, route, now), w1, id, Routing(w2, key, id, route));
  }

  lemma ResolvedCloses(w: World, key: Key, route: Route, now: Time)
    requires Invariant(w)
    ensures ClosesAtMostOne(w, Resolve(key, route, now), Resolved(w, key, route, now))
  {
    if Target(w, Resolve(key, route, now)).Some? {
      var (w1, id) := Obtained(w, key);
      ObtainedOpen(w, key);
      if route.Observe? {
        ObservedCloses(w, w1, key, id, route.ok, now);
      } else {
        RoutedCloses(w, w1, key, id, route, now);
      }
    }
  }

  lemma ResumedCloses(w: World, task: TaskId, outcome: Outcome)
    requires Invariant(w)
    ensures ClosesAtMostOne(w, Resume(task, outcome), Resumed(w, task, outcome))
  {
    if task in w.waiting && outcome.Routed? {
      var id := w.waiting[task].stash;
      FlushCloses(w, Resume(task, outcome), Kept(w.(waiting := w.waiting - {task}), id), id, Resumed(w, task, outcome));
    }
  }

  lemma FedCloses(w: World, e: Event, id: StashId)
    requires Invariant(w) && e.Output? && Target(w, e) == Some(id) && id in w.stashes && w.stashes[id].request.Some?
    ensures var w1 := Fed(w, id, e.usage, e.failed);
            id in w1.stashes && w1.stashes[id].request.Some? && Closes(w, e, CompletionOf(w1, id, Some(e.usage)))
  {
    FedKeeps(w, id, e.usage, e.failed);
    FedSeen(w, id, e.usage, e.failed, id);
  }

  lemma OutputCloses(w: World, key: Key, usage: Usage, failed: bool, terminal: bool)
    requires Invariant(w)
    ensures ClosesAtMostOne(w, Output(key, usage, failed, terminal), OutputSeen(w, key, usage, failed, terminal))
  {
    if key in w.table {
      var id := w.table[key];
      if IsOpen(w.stashes[id]) && (terminal || HasUsage(usage)) {
        FedCloses(w, Output(key, usage, failed, terminal), id);
        var w1 := Fed(w, id, usage, failed);
        assert OutputSeen(w, key, usage, failed, terminal) == Completed(w1, id, Some(usage));
        assert Completed(w1, id, Some(usage)).completed == w.completed + [CompletionOf(w1, id, Some(usage))];
      }
    }
  }

  lemma StepCloses(w: World, e: Event)
    requires Invariant(w)
    ensures ClosesAtMostOne(w, e, Step(w, e))
  {
    match e
    case Resolve(key, route, now) => ResolvedCloses(w, key, route, now);
    case Resume(task, outcome) => ResumedCloses(w, task, outcome);
    case Output(key, usage, failed, terminal) => OutputCloses(w, key, usage, failed, terminal);
    case End(key) => if key in w.table { FlushCloses(w, e, w, w.table[key], Ended(w, key)); }
    case Evict(now) =>
  }

  // -- whole runs -------------------------------------------------------------------------

  // Event k completed the row, with the counts heard up to it and with it.
  ghost predicate ClosedAt(events: seq<Event>, k: nat, c: Completion)
    requires k < |events|
  {
    var w := Reached(events[..k]);
    && Sound(w) && Target(w, events[k]).Some?
    && Target(w, events[k]).value in w.stashes && w.stashes[Target(w, events[k]).value].request == Some(c.id)
    && c.usage == Merged(Sum(Heard(events[..k], Target(w, events[k]).value) + Brings(events[k])), LastWord(events[k]))
  }

  lemma ClosesNow(events: seq<Event>, e: Event, c: Completion)
    requires Sound(Reached(events)) && Closes(Reached(events), e, c)
    ensures ClosedAt(events + [e], |events|, c)
  {
    assert (events + [e])[..|events|] == events;
    SeenIsHeard(events, Target(Reached(events), e).value);
  }

  lemma ClosedBefore(events: seq<Event>, e: Event, k: nat, c: Completion)
    requires k < |events| && ClosedAt(events, k, c)
    ensures ClosedAt(events + [e], k, c)
  {
    assert (events + [e])[..k] == events[..k] && (events + [e])[k] == events[k];
  }

  /** A row is completed by one hook event, and with the sum of the counts of exactly the outputs that
      reached its stash since a row was last opened on it, that event's own included; if they come
      to no input and no output, with what the completing output itself says, and with nothing if
      it says nothing or the row was flushed. */
  lemma {:induction false} UsageIsOwn(events: seq<Event>, i: nat)
    requires i < |Reached(events).completed|
    ensures exists k: nat :: k < |events| && ClosedAt(events, k, Reached(events).completed[i])
    decreases |events|
  {
    assert events != [];
    var init, last := events[..|events| - 1], events[|events| - 1];
    assert events == init + [last];
    var w, c := Reached(init), Reached(events).completed[i];
    AfterLast(Next, EMPTY, init, last);
    InvariantReached(init);
    StepCloses(w, last);
    if i < |w.completed| {
      UsageIsOwn(init, i);
      var k: nat :| k < |init| && ClosedAt(init, k, w.completed[i]);
      ClosedBefore(init, last, k, c);
    } else {
      var d :| Closes(w, last, d) && Reached(events).completed == w.completed + [d];
      ClosesNow(init, last, d);
    }
  }
}
