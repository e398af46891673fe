/** The hook handlers as methods that update the stash table and the stashes in place, each from
    one await to the next. Stashes are shared through their identities. */
module TurnsClass {
  import opened Wrappers
  import opened Turns
  import opened TurnsHooks

  class DashboardHooks {
    var stashes: map<StashId, Stash>
    var sessionStash: map<Key, StashId>
    var waiting: map<TaskId, Waiter>
    var nextStash: StashId
    var nextRequest: RequestId
    var recorded: map<RequestId, Key>
    var completed: seq<Completion>
    var seen: map<StashId, seq<Usage>>

    function State(): World
      reads this
    {
      World(stashes, sessionStash, waiting, nextStash, nextRequest, recorded, completed, seen)
    }

    constructor ()
      ensures State() == EMPTY
    {
      stashes, sessionStash, waiting, nextStash, nextRequest := map[], map[], map[], 0, 0;
      recorded, completed, seen := map[], [], map[];
    }

    // completeRoutedTurn, and the stash is through with the row.
    method CompleteTurn(id: StashId, last: Option<Usage>)
      requires id in stashes && stashes[id].request.Some?
      modifies this
      ensures State() == Completed(old(State()), id, last)
    {
      var s := stashes[id];
      completed := completed + [Completion(s.request.value, Merged(s.tokens, last), if id in seen then seen[id] else [])];
      stashes := stashes[id := s.(finalized := true)];
      sessionStash := sessionStash[s.owner := id];
    }

    method FlushIncompleteDashboardTurn(id: StashId)
      requires id in stashes
      modifies this
      ensures State() == Flushed(old(State()), id)
    {
      if stashes[id].request.None? || stashes[id].finalized {
        return;
      }
      CompleteTurn(id, None);
    }

    // Both ways to begin a turn; ok: the dashboard could record the row.
    method BeginDashboardTurn(id: StashId, ok: bool)
      requires id in stashes
      modifies this
      ensures State() == Begun(old(State()), id, ok)
    {
      FlushIncompleteDashboardTurn(id);
      var requestId := nextRequest;
      nextRequest := nextRequest + 1;
      stashes := stashes[id := stashes[id].(request := Some(requestId), finalized := false, tokens := None, hadError := false)];
      seen := seen[id := []];
      if !ok {
        stashes := stashes[id := stashes[id].(request := None)];
        return;
      }
      recorded := recorded[requestId := stashes[id].owner];
      sessionStash := sessionStash[stashes[id].owner := id];
    }

    method ObtainStash(key: Key) returns (id: StashId)
      modifies this
      ensures (State(), id) == Obtained(old(State()), key)
    {
      if key in sessionStash {
        return sessionStash[key];
      }
      id := nextStash;
      nextStash := nextStash + 1;
      stashes := stashes[id := Stash(key, None, false, None, false, None)];
      seen := seen[id := []];
    }

    method BeforeModelResolve(key: Key, route: Route, now: Time)
      requires Sound(State())
      modifies this
      ensures State() == Resolved(old(State()), key, route, now)
    {
      if route.Skip? || (route.Await? && route.task in waiting) {
        return;
      }
      var id := ObtainStash(key);
      if !route.Observe? {
        FlushIncompleteDashboardTurn(id);
      }
      stashes := stashes[id := stashes[id].(started := Some(now))];
      match route
      case Observe(ok) =>
        BeginDashboardTurn(id, ok);
        sessionStash := sessionStash[stashes[id].owner := id];
      case Direct(ok) =>
        BeginDashboardTurn(id, ok);
        sessionStash := sessionStash[stashes[id].owner := id];
      case Await(task) => waiting := waiting[task := Waiter(key, id)];
      case _ =>
    }

    // The rest of before_model_resolve, behind the embedding and the pipeline.
    method AfterPipeline(task: TaskId, outcome: Outcome)
      requires Sound(State())
      modifies this
      ensures State() == Resumed(old(State()), task, outcome)
      ensures ResumeDone(old(State()), State(), task, outcome)
    {
      ResumeStep(State(), task, outcome);
      if task !in waiting {
        return;
      }
      var id := waiting[task].stash;
      waiting := waiting - {task};
      if outcome.Failed? {
        return;
      }
      sessionStash := sessionStash[stashes[id].owner := id];
      if outcome.Routed? {
        BeginDashboardTurn(id, outcome.ok);
        sessionStash := sessionStash[stashes[id].owner := id];
      }
    }

    method LlmOutput(key: Key, usage: Usage, failed: bool, terminal: bool)
      requires Sound(State())
      modifies this
      ensures State() == OutputSeen(old(State()), key, usage, failed, terminal)
      ensures OutputDone(old(State()), State(), key, usage, failed, terminal)
    {
      OutputStep(State(), key, usage, failed, terminal);
      if key !in sessionStash {
        return;
      }
      var id := sessionStash[key];
      FeedStash(id, usage, failed);
      if stashes[id].request.None? || stashes[id].finalized {
        return;
      }
      if !terminal && !HasUsage(usage) {
        return;
      }
      CompleteTurn(id, Some(usage));
    }

    method FeedStash(id: StashId, usage: Usage, failed: bool)
      requires id in stashes
      modifies this
      ensures State() == Fed(old(State()), id, usage, failed)
    {
      var s := stashes[id];
      if failed {
        s := s.(hadError := true);
      }
      if HasUsage(usage) {
        var t := if s.tokens.Some? then s.tokens.value else Tokens(0, 0);
        s := s.(tokens := Some(Tokens(t.input + usage.prompt, t.output + usage.completion)));
        seen := seen[id := (if id in seen then seen[id] else []) + [usage]];
      }
      stashes := stashes[id := s];
    }

    method SessionEnd(key: Key)
      requires Sound(State())
      modifies this
      ensures State() == Ended(old(State()), key)
    {
      if key in sessionStash {
        FlushIncompleteDashboardTurn(sessionStash[key]);
      }
      sessionStash := sessionStash - {key};
    }

    // The periodic clean-up of stashes whose session never ended.
    method EvictStale(now: Time)
      requires Sound(State())
      modifies this
      ensures State() == Evicted(old(State()), now)
      ensures forall key :: key in sessionStash <==>
                key in old(sessionStash)
                && match old(stashes)[old(sessionStash)[key]].started
                   case None => true
                   case Some(started) => started == 0 || now - started <= 30 * 60 * 1000
    {
      EvictStep(State(), now);
      ghost var w := State();
      var keys := sessionStash.Keys;
      EvictionEnds(w, now);
      while keys != {}
        invariant keys <= w.table.Keys && stashes == w.stashes
        invariant sessionStash == PartlyEvicted(w, keys, now)
        invariant State() == w.(table := sessionStash)
        decreases |keys|
      {
        var key :| key in keys;
        EvictOne(w, keys, key, now);
        var started := stashes[sessionStash[key]].started;
        if started.Some? && started.value != 0 && now - started.value > STASH_MAX_AGE {
          sessionStash := sessionStash - {key};
        }
        keys := keys - {key};
      }
    }
  }

  // The table while the keys in keys are still to be looked at.
  ghost function PartlyEvicted(w: World, keys: set<Key>, now: Time): map<Key, StashId>
    requires Sound(w)
  {
    map key | key in w.table && (key in keys || !Stale(w, key, now)) :: w.table[key]
  }

  lemma EvictOne(w: World, keys: set<Key>, key: Key, now: Time)
    requires Sound(w) && keys <= w.table.Keys && key in keys
    ensures key in PartlyEvicted(w, keys, now) && PartlyEvicted(w, keys, now)[key] == w.table[key]
    ensures w.table[key] in w.stashes
    ensures PartlyEvicted(w, keys - {key}, now)
         == if Stale(w, key, now) then PartlyEvicted(w, keys, now) - {key} else PartlyEvicted(w, keys, now)
  {
  }

  lemma EvictionEnds(w: World, now: Time)
    requires Sound(w)
    ensures PartlyEvicted(w, w.table.Keys, now) == w.table && PartlyEvicted(w, {}, now) == Evicted(w, now).table
  {
  }
}
