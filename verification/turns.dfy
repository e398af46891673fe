/** Dashboard turns: hook handlers that overlap at their awaits open, feed and complete request
    rows through a stash per session. */
module Turns {
  import opened Wrappers
  import opened Behaviours

  type Key = string
  type StashId = nat
  type RequestId = nat
  type TaskId = nat
  type Time = int

  // Token counts of one output event.
  datatype Usage = Usage(prompt: nat, completion: nat, total: nat)

  // What is accumulated on a stash.
  datatype Tokens = Tokens(input: nat, output: nat)

  // owner: the session the stash was made for.
  datatype Stash = Stash(owner: Key, request: Option<RequestId>, finalized: bool, tokens: Option<Tokens>, hadError: bool,
                         started: Option<Time>)

  // A call that completes a request row; seen are the usage events of its stash since the row was
  // opened.
  datatype Completion = Completion(id: RequestId, usage: Option<Usage>, seen: seq<Usage>)

  // Stashes are objects: the table holds references, and so does a handler that waits. recorded:
  // the request rows opened, and for which session.
  datatype World = World(
    stashes: map<StashId, Stash>,
    table: map<Key, StashId>,
    waiting: map<TaskId, Waiter>,
    nextStash: StashId,
    nextRequest: RequestId,
    recorded: map<RequestId, Key>,
    completed: seq<Completion>,
    seen: map<StashId, seq<Usage>>)

  // A handler behind its await: its session and the stash it holds.
  datatype Waiter = Waiter(key: Key, stash: StashId)

  const EMPTY: World := World(map[], map[], map[], 0, 0, map[], [], map[])

  const STASH_MAX_AGE: int := 1800_000

  predicate HasUsage(u: Usage) {
    u.prompt > 0 || u.completion > 0 || u.total > 0
  }

  predicate IsOpen(s: Stash) {
    s.request.Some? && !s.finalized
  }

  // The usage a row is completed with: the stash's totals, else what the last event says.
  function Merged(tokens: Option<Tokens>, last: Option<Usage>): Option<Usage> {
    if tokens.Some? && (tokens.value.input > 0 || tokens.value.output > 0)
    then Some(Usage(tokens.value.input, tokens.value.output, tokens.value.input + tokens.value.output))
    else if last.Some? && HasUsage(last.value) then last else None
  }

  function PutStash(w: World, id: StashId, s: Stash): World {
    w.(stashes := w.stashes[id := s])
  }

  function SeenOn(w: World, id: StashId): seq<Usage> {
    if id in w.seen then w.seen[id] else []
  }

  // completeRoutedTurn and what follows it.
  function Completed(w: World, id: StashId, last: Option<Usage>): World
    requires id in w.stashes && w.stashes[id].request.Some?
  {
    var s := w.stashes[id];
    PutStash(w, id, s.(finalized := true))
      .(completed := w.completed + [Completion(s.request.value, Merged(s.tokens, last), SeenOn(w, id))],
        table := w.table[s.owner := id])
  }

  // flushIncompleteDashboardTurn
  function Flushed(w: World, id: StashId): World
    requires id in w.stashes
  {
    if IsOpen(w.stashes[id]) then Completed(w, id, None) else w
  }

  // A row is opened on a stash; ok: it could be recorded.
  function Opened(w: World, id: StashId, ok: bool): World
    requires id in w.stashes
  {
    var s := w.stashes[id].(request := if ok then Some(w.nextRequest) else None, finalized := false, tokens := None, hadError := false);
    var w1 := PutStash(w, id, s).(nextRequest := w.nextRequest + 1, seen := w.seen[id := []]);
    if ok then w1.(recorded := w1.recorded[w.nextRequest := s.owner], table := w1.table[s.owner := id]) else w1
  }

  // beginDashboardTurn and beginDashboardObservedTurn
  function Begun(w: World, id: StashId, ok: bool): World
    requires id in w.stashes
  {
    Opened(Flushed(w, id), id, ok)
  }

  function WithNew(w: World, key: Key): World {
    PutStash(w, w.nextStash, Stash(key, None, false, None, false, None)).(nextStash := w.nextStash + 1, seen := w.seen[w.nextStash := []])
  }

  // The session's stash, or a new one that is not in the table yet.
  function Obtained(w: World, key: Key): (World, StashId) {
    if key in w.table then (w, w.table[key]) else (WithNew(w, key), w.nextStash)
  }

  function Started(w: World, id: StashId, now: Time): World
    requires id in w.stashes
  {
    PutStash(w, id, w.stashes[id].(started := Some(now)))
  }

  function Kept(w: World, id: StashId): World
    requires id in w.stashes
  {
    w.(table := w.table[w.stashes[id].owner := id])
  }

  // How before_model_resolve goes: nothing to route; router off; a pin or tier directive; no
  // pipeline; or the pipeline, behind an await.
  datatype Route = Skip | Observe(ok: bool) | Direct(ok: bool) | NoPipeline | Await(task: TaskId)

  // How it goes on after the await.
  datatype Outcome = Routed(ok: bool) | Unrouted | Failed

  datatype Event =
    | Resolve(key: Key, route: Route, now: Time)
    | Resume(task: TaskId, outcome: Outcome)
    | Output(key: Key, usage: Usage, failed: bool, terminal: bool)
    | End(key: Key)
    | Evict(now: Time)

  // The rest of the handler, once the stash is flushed and stamped.
  function Routing(w: World, key: Key, id: StashId, route: Route): World
    requires id in w.stashes
  {
    match route
    case Direct(ok) => Kept(Begun(w, id, ok), id)
    case Await(task) => w.(waiting := w.waiting[task := Waiter(key, id)])
    case _ => w
  }

  function Observing(w: World, id: StashId, ok: bool, now: Time): World
    requires id in w.stashes
  {
    Kept(Begun(Started(w, id, now), id, ok), id)
  }

  function Resolved(w: World, key: Key, route: Route, now: Time): World
    requires Sound(w)
  {
    var (w1, id) := Obtained(w, key);
    if route.Skip? || (route.Await? && route.task in w.waiting) then w
    else if route.Observe? then Observing(w1, id, route.ok, now)
    else Routing(Started(Flushed(w1, id), id, now), key, id, route)
  }

  // The handler goes on with the stash it held.
  function GoneOn(w: World, id: StashId, outcome: Outcome): World
    requires id in w.stashes
  {
    match outcome
    case Failed => w
    case Unrouted => Kept(w, id)
    case Routed(ok) => Kept(Begun(Kept(w, id), id, ok), id)
  }

  function Resumed(w: World, task: TaskId, outcome: Outcome): World
    requires Sound(w)
  {
    if task !in w.waiting then w
    else
      GoneOn(w.(waiting := w.waiting - {task}), w.waiting[task].stash, outcome)
  }

  function Plus(t: Option<Tokens>, u: Usage): Tokens {
    if t.Some? then Tokens(t.value.input + u.prompt, t.value.output + u.completion) else Tokens(u.prompt, u.completion)
  }

  // The event's counts join the stash.
  function FedStash(s: Stash, usage: Usage, failed: bool): (r: Stash)
    ensures r.owner == s.owner && r.request == s.request && r.finalized == s.finalized && r.started == s.started
  {
    s.(hadError := s.hadError || failed, tokens := if HasUsage(usage) then Some(Plus(s.tokens, usage)) else s.tokens)
  }

  function Fed(w: World, id: StashId, usage: Usage, failed: bool): World
    requires id in w.stashes
  {
    PutStash(w, id, FedStash(w.stashes[id], usage, failed))
      .(seen := if HasUsage(usage) then w.seen[id := SeenOn(w, id) + [usage]] else w.seen)
  }

  // llm_output
  function OutputSeen(w: World, key: Key, usage: Usage, failed: bool, terminal: bool): World
    requires Sound(w)
  {
    if key !in w.table then w
    else
      var id := w.table[key];
      var w1 := Fed(w, id, usage, failed);
      if !IsOpen(w1.stashes[id]) || (!terminal && !HasUsage(usage)) then w1 else Completed(w1, id, Some(usage))
  }

  // session_end
  function Ended(w: World, key: Key): World
    requires Sound(w)
  {
    if key !in w.table then w else var w1 := Flushed(w, w.table[key]); w1.(table := w1.table - {key})
  }

  predicate Stale(w: World, key: Key, now: Time)
    requires Sound(w) && key in w.table
  {
    var started := w.stashes[w.table[key]].started;
    started.Some? && started.value != 0 && now - started.value > STASH_MAX_AGE
  }

  function Evicted(w: World, now: Time): World
    requires Sound(w)
  {
    w.(table := map key | key in w.table && !Stale(w, key, now) :: w.table[key])
  }

  function Step(w: World, e: Event): World
    requires Sound(w)
  {
    match e
    case Resolve(key, route, now) => Resolved(w, key, route, now)
    case Resume(task, outcome) => Resumed(w, task, outcome)
    case Output(key, usage, failed, terminal) => OutputSeen(w, key, usage, failed, terminal)
    case End(key) => Ended(w, key)
    case Evict(now) => Evicted(w, now)
  }

  // -- references -------------------------------------------------------------------------

  // References are to stashes that are there, and the table's to stashes of the right session.
  predicate Sound(w: World) {
    && (forall key :: key in w.table ==> w.table[key] in w.stashes && w.stashes[w.table[key]].owner == key)
    && (forall task :: task in w.waiting ==>
          w.waiting[task].stash in w.stashes && w.stashes[w.waiting[task].stash].owner == w.waiting[task].key)
    && (forall id :: id in w.stashes ==> id < w.nextStash)
  }

  // -- at most once -----------------------------------------------------------------------

  predicate Done(w: World, r: RequestId) {
    exists i :: 0 <= i < |w.completed| && w.completed[i].id == r
  }

  ghost predicate CompletedOnce(w: World) {
    && (forall i, j :: 0 <= i < j < |w.completed| ==> w.completed[i].id != w.completed[j].id)
    && (forall i :: 0 <= i < |w.completed| ==> w.completed[i].id in w.recorded)
    && (forall r :: r in w.recorded ==> r < w.nextRequest)
  }

  // No two stashes hold the same request, and an open one is not completed.
  ghost predicate HeldOnce(w: World) {
    && (forall a, b :: a in w.stashes && b in w.stashes && a != b && w.stashes[a].request.Some? ==>
          w.stashes[a].request != w.stashes[b].request)
    && (forall a :: a in w.stashes && w.stashes[a].request.Some? ==>
          w.stashes[a].request.value in w.recorded && w.recorded[w.stashes[a].request.value] == w.stashes[a].owner)
    && (forall a :: a in w.stashes && IsOpen(w.stashes[a]) ==> !Done(w, w.stashes[a].request.value))
  }

  function Sum(seen: seq<Usage>): Option<Tokens> {
    if seen == [] then None else Some(Plus(Sum(seen[..|seen| - 1]), seen[|seen| - 1]))
  }

  function LastSeen(seen: seq<Usage>): Option<Usage> {
    if seen == [] then None else Some(seen[|seen| - 1])
  }

  // What is accumulated on a stash, and what a row is completed with, is what the stash saw.
  ghost predicate UsageSeen(w: World) {
    && (forall id :: id in w.stashes ==> w.stashes[id].tokens == Sum(SeenOn(w, id)))
    && (forall id :: id in w.seen ==> forall i :: 0 <= i < |w.seen[id]| ==> HasUsage(w.seen[id][i]))
    && (forall i :: 0 <= i < |w.completed| ==>
          w.completed[i].usage in {Merged(Sum(w.completed[i].seen), None), Merged(Sum(w.completed[i].seen), LastSeen(w.completed[i].seen))})
  }

  ghost predicate Invariant(w: World) {
    Sound(w) && CompletedOnce(w) && HeldOnce(w) && UsageSeen(w)
  }

  // -- what every operation keeps ---------------------------------------------------------

  // Whether a request is done depends on the completions only.
  lemma DoneMore(w: World, r: World, c: Completion, x: RequestId)
    requires r.completed == w.completed + [c]
    ensures Done(r, x) <==> Done(w, x) || x == c.id
  {
    if Done(w, x) {
      var i :| 0 <= i < |w.completed| && w.completed[i].id == x;
      assert r.completed[i].id == x;
    }
    if x == c.id {
      assert r.completed[|w.completed|].id == x;
    }
  }

  lemma DoneSame(w: World, r: World, x: RequestId)
    requires r.completed == w.completed
    ensures Done(r, x) == Done(w, x)
  {
  }

  // One stash changes, but not whose it is nor its request.
  lemma StillHeld(w: World, r: World, id: StashId, s: Stash)
    requires HeldOnce(w) && id in w.stashes && r.stashes == w.stashes[id := s]
    requires r.recorded == w.recorded && r.completed == w.completed
    requires s.owner == w.stashes[id].owner && s.request == w.stashes[id].request && (IsOpen(s) ==> IsOpen(w.stashes[id]))
    ensures HeldOnce(r)
  {
    forall a | a in r.stashes && IsOpen(r.stashes[a])
      ensures !Done(r, r.stashes[a].request.value)
    {
      DoneSame(w, r, r.stashes[a].request.value);
    }
  }

  lemma PutKeeps(w: World, id: StashId, s: Stash)
    requires Invariant(w) && id in w.stashes
    requires s.owner == w.stashes[id].owner && s.request == w.stashes[id].request && s.tokens == w.stashes[id].tokens
    requires IsOpen(s) ==> IsOpen(w.stashes[id])
    ensures Invariant(PutStash(w, id, s))
  {
    StillHeld(w, PutStash(w, id, s), id, s);
  }

  // Changes to who refers to what leave the rest alone.
  lemma ReferencesKeep(w: World, r: World)
    requires Invariant(w) && Sound(r) && r.stashes == w.stashes && r.nextRequest == w.nextRequest
    requires r.recorded == w.recorded && r.completed == w.completed && r.seen == w.seen
    ensures Invariant(r)
  {
    forall a | a in r.stashes && IsOpen(r.stashes[a])
      ensures !Done(r, r.stashes[a].request.value)
    {
      DoneSame(w, r, r.stashes[a].request.value);
    }
  }

  lemma NewHeld(w: World, key: Key)
    requires Sound(w) && HeldOnce(w)
    ensures HeldOnce(WithNew(w, key))
  {
    var r := WithNew(w, key);
    forall a | a in r.stashes && IsOpen(r.stashes[a])
      ensures !Done(r, r.stashes[a].request.value)
    {
      DoneSame(w, r, r.stashes[a].request.value);
    }
  }

  lemma NewUsage(w: World, key: Key)
    requires Sound(w) && UsageSeen(w)
    ensures UsageSeen(WithNew(w, key))
  {
    var r := WithNew(w, key);
    forall a | a in r.stashes
      ensures r.stashes[a].tokens == Sum(SeenOn(r, a))
    {
      assert a != w.nextStash ==> SeenOn(r, a) == SeenOn(w, a) && r.stashes[a] == w.stashes[a];
    }
  }

  lemma NewKeeps(w: World, key: Key)
    requires Invariant(w)
    ensures Invariant(WithNew(w, key))
  {
    NewHeld(w, key);
    NewUsage(w, key);
  }

  lemma ObtainedKeeps(w: World, key: Key)
    requires Invariant(w)
    ensures var (r, id) := Obtained(w, key); Invariant(r) && id in r.stashes && r.stashes[id].owner == key
  {
    NewKeeps(w, key);
  }

  lemma CompletedOnceKeeps(w: World, id: StashId, last: Option<Usage>)
    requires Invariant(w) && id in w.stashes && IsOpen(w.stashes[id])
    ensures CompletedOnce(Completed(w, id, last))
  {
    var r := Completed(w, id, last);
    var x := w.stashes[id].request.value;
    assert !Done(w, x);
    forall i, j | 0 <= i < j < |r.completed|
      ensures r.completed[i].id != r.completed[j].id
    {
    }
  }

  lemma CompletedHeld(w: World, id: StashId, last: Option<Usage>)
    requires Invariant(w) && id in w.stashes && IsOpen(w.stashes[id])
    ensures HeldOnce(Completed(w, id, last))
  {
    var r := Completed(w, id, last);
    var x := w.stashes[id].request.value;
    forall a | a in r.stashes && IsOpen(r.stashes[a])
      ensures !Done(r, r.stashes[a].request.value)
    {
      assert a != id;
      DoneMore(w, r, r.completed[|w.completed|], r.stashes[a].request.value);
    }
  }

  lemma CompletedKeeps(w: World, id: StashId, last: Option<Usage>)
    requires Invariant(w) && id in w.stashes && IsOpen(w.stashes[id])
    requires Merged(Sum(SeenOn(w, id)), last) in {Merged(Sum(SeenOn(w, id)), None), Merged(Sum(SeenOn(w, id)), LastSeen(SeenOn(w, id)))}
    ensures Invariant(Completed(w, id, last))
  {
    CompletedOnceKeeps(w, id, last);
    CompletedHeld(w, id, last);
  }

  lemma FlushedKeeps(w: World, id: StashId)
    requires Invariant(w) && id in w.stashes
    ensures var r := Flushed(w, id);
            && Invariant(r) && id in r.stashes && !IsOpen(r.stashes[id]) && r.stashes[id].owner == w.stashes[id].owner
            && r.waiting == w.waiting && r.stashes.Keys == w.stashes.Keys
  {
    if IsOpen(w.stashes[id]) {
      CompletedKeeps(w, id, None);
    }
  }

  lemma OpenedHeld(w: World, id: StashId, ok: bool)
    requires Invariant(w) && id in w.stashes && !IsOpen(w.stashes[id])
    ensures HeldOnce(Opened(w, id, ok))
  {
    var r := Opened(w, id, ok);
    forall i | 0 <= i < |w.completed|
      ensures w.completed[i].id < w.nextRequest
    {
      assert w.completed[i].id in w.recorded;
    }
    assert !Done(w, w.nextRequest);
    forall a | a in r.stashes && IsOpen(r.stashes[a])
      ensures !Done(r, r.stashes[a].request.value)
    {
      DoneSame(w, r, r.stashes[a].request.value);
    }
  }

  lemma OpenedUsage(w: World, id: StashId, ok: bool)
    requires UsageSeen(w) && id in w.stashes
    ensures UsageSeen(Opened(w, id, ok))
  {
    var r := Opened(w, id, ok);
    forall a | a in r.stashes
      ensures r.stashes[a].tokens == Sum(SeenOn(r, a))
    {
      assert a != id ==> SeenOn(r, a) == SeenOn(w, a);
    }
  }

  lemma OpenedRows(w: World, id: StashId, ok: bool)
    requires Sound(w) && CompletedOnce(w) && id in w.stashes
    ensures Sound(Opened(w, id, ok)) && CompletedOnce(Opened(w, id, ok))
  {
  }

  lemma OpenedKeeps(w: World, id: StashId, ok: bool)
    requires Invariant(w) && id in w.stashes && !IsOpen(w.stashes[id])
    ensures Invariant(Opened(w, id, ok)) && id in Opened(w, id, ok).stashes
  {
    OpenedHeld(w, id, ok);
    OpenedUsage(w, id, ok);
    OpenedRows(w, id, ok);
  }

  lemma BegunKeeps(w: World, id: StashId, ok: bool)
    requires Invariant(w) && id in w.stashes
    ensures Invariant(Begun(w, id, ok)) && id in Begun(w, id, ok).stashes
  {
    FlushedKeeps(w, id);
    OpenedKeeps(Flushed(w, id), id, ok);
  }

  lemma KeptKeeps(w: World, id: StashId)
    requires Invariant(w) && id in w.stashes
    ensures Invariant(Kept(w, id))
  {
    ReferencesKeep(w, Kept(w, id));
  }

  lemma StartedKeeps(w: World, id: StashId, now: Time)
    requires Invariant(w) && id in w.stashes
    ensures Invariant(Started(w, id, now)) && id in Started(w, id, now).stashes
  {
    PutKeeps(w, id, w.stashes[id].(started := Some(now)));
  }

  lemma SumNext(seen: seq<Usage>, u: Usage)
    ensures Sum(seen + [u]) == Some(Plus(Sum(seen), u))
  {
    assert (seen + [u])[..|seen|] == seen;
  }

  lemma FedTokens(w: World, id: StashId, usage: Usage, failed: bool)
    requires id in w.stashes && w.stashes[id].tokens == Sum(SeenOn(w, id))
    ensures Fed(w, id, usage, failed).stashes[id].tokens == Sum(SeenOn(Fed(w, id, usage, failed), id))
  {
    SumNext(SeenOn(w, id), usage);
  }

  lemma FedSeen(w: World, id: StashId, usage: Usage, failed: bool)
    requires id in w.stashes && forall a :: a in w.seen ==> forall i :: 0 <= i < |w.seen[a]| ==> HasUsage(w.seen[a][i])
    ensures var seen := Fed(w, id, usage, failed).seen; forall a :: a in seen ==> forall i :: 0 <= i < |seen[a]| ==> HasUsage(seen[a][i])
  {
  }

  lemma FedUsage(w: World, id: StashId, usage: Usage, failed: bool)
    requires UsageSeen(w) && id in w.stashes
    ensures UsageSeen(Fed(w, id, usage, failed))
  {
    var r := Fed(w, id, usage, failed);
    FedTokens(w, id, usage, failed);
    FedSeen(w, id, usage, failed);
    forall a | a in r.stashes && a != id
      ensures r.stashes[a].tokens == Sum(SeenOn(r, a))
    {
      assert SeenOn(r, a) == SeenOn(w, a) && r.stashes[a] == w.stashes[a];
    }
  }

  lemma FedKeeps(w: World, id: StashId, usage: Usage, failed: bool)
    requires Invariant(w) && id in w.stashes
    ensures Invariant(Fed(w, id, usage, failed)) && id in Fed(w, id, usage, failed).stashes
    ensures HasUsage(usage) ==> LastSeen(SeenOn(Fed(w, id, usage, failed), id)) == Some(usage)
  {
    FedUsage(w, id, usage, failed);
    StillHeld(w, Fed(w, id, usage, failed), id, FedStash(w.stashes[id], usage, failed));
  }

  lemma OutputKeeps(w: World, key: Key, usage: Usage, failed: bool, terminal: bool)
    requires Invariant(w)
    ensures Invariant(OutputSeen(w, key, usage, failed, terminal))
  {
    if key in w.table {
      var id := w.table[key];
      var w1 := Fed(w, id, usage, failed);
      FedKeeps(w, id, usage, failed);
      if IsOpen(w1.stashes[id]) && (terminal || HasUsage(usage)) {
        CompletedKeeps(w1, id, Some(usage));
      }
    }
  }

  lemma ObservingKeeps(w: World, id: StashId, ok: bool, now: Time)
    requires Invariant(w) && id in w.stashes
    ensures Invariant(Observing(w, id, ok, now))
  {
    StartedKeeps(w, id, now);
    BegunKeeps(Started(w, id, now), id, ok);
    KeptKeeps(Begun(Started(w, id, now), id, ok), id);
  }

  lemma RoutingKeeps(w: World, key: Key, id: StashId, route: Route)
    requires Invariant(w) && id in w.stashes && w.stashes[id].owner == key
    ensures Invariant(Routing(w, key, id, route))
  {
    if route.Direct? {
      BegunKeeps(w, id, route.ok);
      KeptKeeps(Begun(w, id, route.ok), id);
    } else if route.Await? {
      ReferencesKeep(w, Routing(w, key, id, route));
    }
  }

  lemma ResolvedKeeps(w: World, key: Key, route: Route, now: Time)
    requires Invariant(w)
    ensures Invariant(Resolved(w, key, route, now))
  {
    var (w1, id) := Obtained(w, key);
    ObtainedKeeps(w, key);
    if route.Observe? {
      ObservingKeeps(w1, id, route.ok, now);
    } else if !route.Skip? && !(route.Await? && route.task in w.waiting) {
      FlushedKeeps(w1, id);
      StartedKeeps(Flushed(w1, id), id, now);
      RoutingKeeps(Started(Flushed(w1, id), id, now), key, id, route);
    }
  }

  lemma GoneOnKeeps(w: World, id: StashId, outcome: Outcome)
    requires Invariant(w) && id in w.stashes
    ensures Invariant(GoneOn(w, id, outcome))
  {
    KeptKeeps(w, id);
    if outcome.Routed? {
      BegunKeeps(Kept(w, id), id, outcome.ok);
      KeptKeeps(Begun(Kept(w, id), id, outcome.ok), id);
    }
  }

  lemma ResumedKeeps(w: World, task: TaskId, outcome: Outcome)
    requires Invariant(w)
    ensures Invariant(Resumed(w, task, outcome))
  {
    if task in w.waiting {
      var w1 := w.(waiting := w.waiting - {task});
      ReferencesKeep(w, w1);
      GoneOnKeeps(w1, w.waiting[task].stash, outcome);
    }
  }

  lemma EndedKeeps(w: World, key: Key)
    requires Invariant(w)
    ensures Invariant(Ended(w, key))
  {
    if key in w.table {
      FlushedKeeps(w, w.table[key]);
      ReferencesKeep(Flushed(w, w.table[key]), Ended(w, key));
    }
  }

  /** Every hook, up to its next await, keeps the invariant. */
  lemma StepKeeps(w: World, e: Event)
    requires Invariant(w)
    ensures Invariant(Step(w, e))
  {
    match e
    case Resolve(key, route, now) => ResolvedKeeps(w, key, route, now);
    case Resume(task, outcome) => ResumedKeeps(w, task, outcome);
    case Output(key, usage, failed, terminal) => OutputKeeps(w, key, usage, failed, terminal);
    case End(key) => EndedKeeps(w, key);
    case Evict(now) => ReferencesKeep(w, Evicted(w, now));
  }

  function Next(w: World, e: Event): World {
    if Sound(w) then Step(w, e) else w
  }

  function Reached(events: seq<Event>): World {
    After(Next, EMPTY, events)
  }

  lemma InvariantReached(events: seq<Event>)
    ensures Invariant(Reached(events))
  {
    forall w, e | Invariant(w)
      ensures Invariant(Next(w, e))
    {
      StepKeeps(w, e);
    }
    AlwaysAfter(Invariant, Next, EMPTY, events);
  }

  /** Under any interleaving of hooks each request row is completed at most once, and only rows that
      were recorded are. */
  lemma CompletedAtMostOnce(events: seq<Event>, i: nat, j: nat)
    requires i < |Reached(events).completed| && j < |Reached(events).completed|
    ensures Reached(events).completed[i].id in Reached(events).recorded
    ensures Reached(events).completed[i].id == Reached(events).completed[j].id ==> i == j
  {
    InvariantReached(events);
  }

  // -- every row of an orderly session is completed ---------------------------------------

  // The row is the open one of the session's stash.
  predicate OpenFor(w: World, key: Key, r: RequestId)
    requires Sound(w)
  {
    key in w.table && w.stashes[w.table[key]].request == Some(r) && !w.stashes[w.table[key]].finalized
  }

  ghost predicate RowsSettled(w: World, key: Key)
    requires Sound(w)
  {
    forall r :: r in w.recorded && w.recorded[r] == key ==> Done(w, r) || OpenFor(w, key, r)
  }

  // A stash of the session is the one in the table, or nothing is open on it.
  predicate Fits(w: World, id: StashId)
    requires Sound(w) && id in w.stashes
  {
    var key := w.stashes[id].owner;
    if key in w.table then w.table[key] == id else !IsOpen(w.stashes[id])
  }

  predicate WaitsFor(w: World, task: TaskId, key: Key) {
    task in w.waiting && w.waiting[task].key == key
  }

  // At most one handler of the session waits, with a stash that fits.
  ghost predicate WaitingFits(w: World, key: Key)
    requires Sound(w)
  {
    && (forall t, u :: WaitsFor(w, t, key) && WaitsFor(w, u, key) ==> t == u)
    && (forall t :: WaitsFor(w, t, key) ==> Fits(w, w.waiting[t].stash))
  }

  ghost predicate Settled(w: World, key: Key)
    requires Sound(w)
  {
    RowsSettled(w, key) && WaitingFits(w, key)
  }

  // Nothing of the session changed.
  ghost predicate Elsewhere(w: World, r: World, key: Key)
    requires Sound(w) && Sound(r)
  {
    && (key in w.table <==> key in r.table) && (key in w.table ==> r.table[key] == w.table[key])
    && (forall id :: id in w.stashes && w.stashes[id].owner == key ==> id in r.stashes && r.stashes[id] == w.stashes[id])
    && (forall x :: x in r.recorded && r.recorded[x] == key ==> x in w.recorded && w.recorded[x] == key)
    && (forall x :: Done(w, x) ==> Done(r, x))
    && (forall t :: WaitsFor(r, t, key) ==> WaitsFor(w, t, key) && r.waiting[t] == w.waiting[t])
  }

  lemma ElsewhereSettled(w: World, r: World, key: Key)
    requires Sound(w) && Sound(r) && Elsewhere(w, r, key) && Settled(w, key)
    ensures Settled(r, key)
  {
    forall t | WaitsFor(r, t, key)
      ensures Fits(r, r.waiting[t].stash)
    {
      assert WaitsFor(w, t, key);
    }
  }

  lemma ElsewhereChain(w: World, m: World, r: World, key: Key)
    requires Sound(w) && Sound(m) && Sound(r) && Elsewhere(w, m, key) && Elsewhere(m, r, key)
    ensures Elsewhere(w, r, key)
  {
  }

  lemma DoneStays(w: World, r: World)
    requires w.completed <= r.completed
    ensures forall x :: Done(w, x) ==> Done(r, x)
  {
    forall x | Done(w, x)
      ensures Done(r, x)
    {
      var i :| 0 <= i < |w.completed| && w.completed[i].id == x;
      assert r.completed[i].id == x;
    }
  }

  lemma SameElsewhere(w: World, key: Key)
    requires Sound(w)
    ensures Elsewhere(w, w, key)
  {
  }

  // What is done to a stash of another session is done elsewhere.
  lemma CompletedElsewhere(w: World, id: StashId, last: Option<Usage>, key: Key)
    requires Sound(w) && id in w.stashes && w.stashes[id].owner != key && w.stashes[id].request.Some?
    ensures Sound(Completed(w, id, last)) && Elsewhere(w, Completed(w, id, last), key)
  {
    DoneStays(w, Completed(w, id, last));
  }

  lemma FlushedElsewhere(w: World, id: StashId, key: Key)
    requires Sound(w) && id in w.stashes && w.stashes[id].owner != key
    ensures Sound(Flushed(w, id)) && Elsewhere(w, Flushed(w, id), key)
  {
    if IsOpen(w.stashes[id]) {
      CompletedElsewhere(w, id, None, key);
    } else {
      SameElsewhere(w, key);
    }
  }

  lemma OpenedElsewhere(w: World, id: StashId, ok: bool, key: Key)
    requires Sound(w) && id in w.stashes && w.stashes[id].owner != key && w.nextRequest !in w.recorded
    ensures Sound(Opened(w, id, ok)) && Elsewhere(w, Opened(w, id, ok), key)
  {
    DoneStays(w, Opened(w, id, ok));
  }

  lemma BegunElsewhere(w: World, id: StashId, ok: bool, key: Key)
    requires Invariant(w) && id in w.stashes && w.stashes[id].owner != key
    ensures Sound(Begun(w, id, ok)) && Elsewhere(w, Begun(w, id, ok), key)
  {
    FlushedKeeps(w, id);
    FlushedElsewhere(w, id, key);
    OpenedElsewhere(Flushed(w, id), id, ok, key);
    ElsewhereChain(w, Flushed(w, id), Begun(w, id, ok), key);
  }

  lemma StartedElsewhere(w: World, id: StashId, now: Time, key: Key)
    requires Sound(w) && id in w.stashes && w.stashes[id].owner != key
    ensures Sound(Started(w, id, now)) && Elsewhere(w, Started(w, id, now), key)
  {
    DoneStays(w, Started(w, id, now));
  }

  lemma KeptElsewhere(w: World, id: StashId, key: Key)
    requires Sound(w) && id in w.stashes && w.stashes[id].owner != key
    ensures Sound(Kept(w, id)) && Elsewhere(w, Kept(w, id), key)
  {
    DoneStays(w, Kept(w, id));
  }

  lemma NewElsewhere(w: World, other: Key, key: Key)
    requires Sound(w) && other != key
    ensures Sound(WithNew(w, other)) && Elsewhere(w, WithNew(w, other), key)
  {
    DoneStays(w, WithNew(w, other));
  }

  lemma ObtainedElsewhere(w: World, other: Key, key: Key)
    requires Sound(w) && other != key
    ensures var (r, id) := Obtained(w, other);
            Sound(r) && id in r.stashes && r.stashes[id].owner == other && Elsewhere(w, r, key)
  {
    NewElsewhere(w, other, key);
    SameElsewhere(w, key);
  }

  // -- within the session -----------------------------------------------------------------

  ghost predicate AllDone(w: World, key: Key) {
    forall r :: r in w.recorded && w.recorded[r] == key ==> Done(w, r)
  }

  // A stash of the session, fit to be worked on.
  ghost predicate Own(w: World, id: StashId, key: Key) {
    Invariant(w) && id in w.stashes && w.stashes[id].owner == key && Fits(w, id)
  }

  lemma FlushedOwn(w: World, id: StashId, key: Key)
    requires Own(w, id, key) && RowsSettled(w, key)
    ensures Own(Flushed(w, id), id, key) && AllDone(Flushed(w, id), key) && !IsOpen(Flushed(w, id).stashes[id])
    ensures Flushed(w, id).waiting == w.waiting
  {
    var r := Flushed(w, id);
    FlushedKeeps(w, id);
    DoneStays(w, r);
    if IsOpen(w.stashes[id]) {
      DoneMore(w, r, r.completed[|w.completed|], w.stashes[id].request.value);
    }
  }

  lemma OpenedSettles(w: World, id: StashId, ok: bool, key: Key)
    requires Own(w, id, key) && AllDone(w, key) && Sound(Opened(w, id, ok))
    ensures RowsSettled(Opened(w, id, ok), key)
  {
    var r := Opened(w, id, ok);
    DoneStays(w, r);
    forall x | x in r.recorded && r.recorded[x] == key
      ensures Done(r, x) || OpenFor(r, key, x)
    {
      if x in w.recorded && x != w.nextRequest {
        assert Done(w, x);
      }
    }
  }

  lemma OpenedOwn(w: World, id: StashId, ok: bool, key: Key)
    requires Own(w, id, key) && AllDone(w, key) && !IsOpen(w.stashes[id])
    ensures Own(Opened(w, id, ok), id, key) && RowsSettled(Opened(w, id, ok), key)
    ensures Opened(w, id, ok).waiting == w.waiting
  {
    OpenedKeeps(w, id, ok);
    OpenedSettles(w, id, ok, key);
  }

  lemma BegunOwn(w: World, id: StashId, ok: bool, key: Key)
    requires Own(w, id, key) && RowsSettled(w, key)
    ensures Own(Begun(w, id, ok), id, key) && RowsSettled(Begun(w, id, ok), key)
    ensures Begun(w, id, ok).waiting == w.waiting
  {
    FlushedOwn(w, id, key);
    OpenedOwn(Flushed(w, id), id, ok, key);
  }

  lemma KeptOwn(w: World, id: StashId, key: Key)
    requires Own(w, id, key) && RowsSettled(w, key)
    ensures Own(Kept(w, id), id, key) && RowsSettled(Kept(w, id), key) && Kept(w, id).waiting == w.waiting
  {
    KeptKeeps(w, id);
    DoneStays(w, Kept(w, id));
  }

  lemma StartedOwn(w: World, id: StashId, now: Time, key: Key)
    requires Own(w, id, key) && RowsSettled(w, key)
    ensures Own(Started(w, id, now), id, key) && RowsSettled(Started(w, id, now), key)
    ensures Started(w, id, now).waiting == w.waiting
  {
    StartedKeeps(w, id, now);
    DoneStays(w, Started(w, id, now));
  }

  lemma NewOwn(w: World, key: Key)
    requires Invariant(w) && RowsSettled(w, key) && key !in w.table
    ensures Own(WithNew(w, key), w.nextStash, key) && RowsSettled(WithNew(w, key), key)
  {
    NewKeeps(w, key);
    DoneStays(w, WithNew(w, key));
  }

  lemma ObtainedOwn(w: World, key: Key)
    requires Invariant(w) && RowsSettled(w, key)
    ensures var (r, id) := Obtained(w, key); Own(r, id, key) && RowsSettled(r, key) && r.waiting == w.waiting
  {
    if key !in w.table {
      NewOwn(w, key);
    }
  }

  lemma FedOwn(w: World, id: StashId, usage: Usage, failed: bool, key: Key)
    requires Own(w, id, key) && RowsSettled(w, key)
    ensures Own(Fed(w, id, usage, failed), id, key) && RowsSettled(Fed(w, id, usage, failed), key)
    ensures Fed(w, id, usage, failed).waiting == w.waiting
  {
    FedKeeps(w, id, usage, failed);
    DoneStays(w, Fed(w, id, usage, failed));
  }

  ghost predicate NoneWaits(w: World, key: Key) {
    forall t :: !WaitsFor(w, t, key)
  }

  // The step does not overlap with a waiting handler of the session, and does not evict it.
  ghost predicate Orderly(w: World, e: Event, key: Key) {
    Sound(w) &&
    match e
    case Resolve(k, _, _) => k == key ==> NoneWaits(w, key)
    case Resume(_, _) => true
    case Output(k, _, _, _) => k == key ==> NoneWaits(w, key)
    case End(k) => k == key ==> NoneWaits(w, key)
    case Evict(now) => key in w.table ==> !Stale(w, key, now)
  }

  lemma ObservingOwn(w: World, id: StashId, ok: bool, now: Time, key: Key)
    requires Own(w, id, key) && RowsSettled(w, key)
    ensures Own(Observing(w, id, ok, now), id, key) && RowsSettled(Observing(w, id, ok, now), key)
    ensures Observing(w, id, ok, now).waiting == w.waiting
  {
    StartedOwn(w, id, now, key);
    BegunOwn(Started(w, id, now), id, ok, key);
    KeptOwn(Begun(Started(w, id, now), id, ok), id, key);
  }

  lemma DirectOwn(w: World, id: StashId, ok: bool, key: Key)
    requires Own(w, id, key) && RowsSettled(w, key)
    ensures var r := Kept(Begun(w, id, ok), id); Own(r, id, key) && RowsSettled(r, key) && r.waiting == w.waiting
  {
    BegunOwn(w, id, ok, key);
    KeptOwn(Begun(w, id, ok), id, key);
  }

  lemma AwaitOwn(w: World, id: StashId, task: TaskId, key: Key)
    requires Own(w, id, key) && RowsSettled(w, key) && NoneWaits(w, key)
    ensures var r := w.(waiting := w.waiting[task := Waiter(key, id)]); Sound(r) && Settled(r, key)
  {
    var r := w.(waiting := w.waiting[task := Waiter(key, id)]);
    DoneStays(w, r);
    forall t | WaitsFor(r, t, key)
      ensures t == task
    {
      assert !WaitsFor(w, t, key);
    }
  }

  lemma NoneWaitsFits(w: World, r: World, key: Key)
    requires Sound(r) && NoneWaits(w, key) && r.waiting == w.waiting
    ensures WaitingFits(r, key)
  {
    forall t
      ensures !WaitsFor(r, t, key)
    {
      assert !WaitsFor(w, t, key);
    }
  }

  lemma RoutingOwn(w: World, key: Key, id: StashId, route: Route)
    requires Own(w, id, key) && RowsSettled(w, key) && NoneWaits(w, key)
    ensures Sound(Routing(w, key, id, route)) && Settled(Routing(w, key, id, route), key)
  {
    if route.Direct? {
      DirectOwn(w, id, route.ok, key);
      NoneWaitsFits(w, Routing(w, key, id, route), key);
    } else if route.Await? {
      AwaitOwn(w, id, route.task, key);
    } else {
      NoneWaitsFits(w, w, key);
    }
  }

  // The session's stash, flushed and stamped.
  lemma ReadyOwn(w: World, w1: World, id: StashId, now: Time, key: Key)
    requires Own(w1, id, key) && RowsSettled(w1, key) && NoneWaits(w, key) && w1.waiting == w.waiting
    ensures id in Flushed(w1, id).stashes
    ensures var r := Started(Flushed(w1, id), id, now); Own(r, id, key) && RowsSettled(r, key) && NoneWaits(r, key)
  {
    FlushedOwn(w1, id, key);
    StartedOwn(Flushed(w1, id), id, now, key);
    SameWaiting(w, Started(Flushed(w1, id), id, now), key);
  }

  lemma ResolvedOwn(w: World, key: Key, route: Route, now: Time)
    requires Invariant(w) && Settled(w, key) && NoneWaits(w, key)
    ensures Sound(Resolved(w, key, route, now)) && Settled(Resolved(w, key, route, now), key)
  {
    var (w1, id) := Obtained(w, key);
    ObtainedOwn(w, key);
    if route.Observe? {
      ObservingOwn(w1, id, route.ok, now, key);
      NoneWaitsFits(w, Observing(w1, id, route.ok, now), key);
    } else if !route.Skip? && !(route.Await? && route.task in w.waiting) {
      ReadyOwn(w, w1, id, now, key);
      RoutingOwn(Started(Flushed(w1, id), id, now), key, id, route);
    }
  }

  lemma SameWaiting(w: World, r: World, key: Key)
    requires NoneWaits(w, key) && r.waiting == w.waiting
    ensures NoneWaits(r, key)
  {
    forall t
      ensures !WaitsFor(r, t, key)
    {
      assert !WaitsFor(w, t, key);
    }
  }

  lemma GoneOnOwn(w: World, id: StashId, outcome: Outcome, key: Key)
    requires Own(w, id, key) && RowsSettled(w, key) && NoneWaits(w, key)
    ensures Sound(GoneOn(w, id, outcome)) && Settled(GoneOn(w, id, outcome), key)
  {
    KeptOwn(w, id, key);
    if outcome.Routed? {
      DirectOwn(Kept(w, id), id, outcome.ok, key);
    }
    NoneWaitsFits(w, GoneOn(w, id, outcome), key);
  }

  lemma ResumedOwn(w: World, task: TaskId, outcome: Outcome, key: Key)
    requires Invariant(w) && Settled(w, key) && WaitsFor(w, task, key)
    ensures Sound(Resumed(w, task, outcome)) && Settled(Resumed(w, task, outcome), key)
  {
    var w1 := w.(waiting := w.waiting - {task});
    ReferencesKeep(w, w1);
    DoneStays(w, w1);
    forall t
      ensures !WaitsFor(w1, t, key)
    {
      assert WaitsFor(w1, t, key) ==> WaitsFor(w, t, key) && t != task;
    }
    GoneOnOwn(w1, w.waiting[task].stash, outcome, key);
  }

  lemma OutputOwn(w: World, key: Key, usage: Usage, failed: bool, terminal: bool)
    requires Invariant(w) && Settled(w, key) && NoneWaits(w, key)
    ensures Sound(OutputSeen(w, key, usage, failed, terminal)) && Settled(OutputSeen(w, key, usage, failed, terminal), key)
  {
    if key in w.table {
      var id := w.table[key];
      var w1 := Fed(w, id, usage, failed);
      FedOwn(w, id, usage, failed, key);
      OutputKeeps(w, key, usage, failed, terminal);
      if IsOpen(w1.stashes[id]) && (terminal || HasUsage(usage)) {
        CompletedOwn(w1, id, Some(usage), key);
      }
      NoneWaitsFits(w, OutputSeen(w, key, usage, failed, terminal), key);
    }
  }

  lemma CompletedOwn(w: World, id: StashId, last: Option<Usage>, key: Key)
    requires Own(w, id, key) && RowsSettled(w, key) && IsOpen(w.stashes[id])
    ensures Sound(Completed(w, id, last)) && RowsSettled(Completed(w, id, last), key) && Completed(w, id, last).waiting == w.waiting
  {
    var r := Completed(w, id, last);
    DoneStays(w, r);
    DoneMore(w, r, r.completed[|w.completed|], w.stashes[id].request.value);
  }

  lemma EndedOwn(w: World, key: Key)
    requires Invariant(w) && Settled(w, key) && NoneWaits(w, key)
    ensures Sound(Ended(w, key)) && Settled(Ended(w, key), key) && AllDone(Ended(w, key), key)
  {
    if key in w.table {
      FlushedOwn(w, w.table[key], key);
      DoneStays(Flushed(w, w.table[key]), Ended(w, key));
    }
    EndedKeeps(w, key);
    NoneWaitsFits(w, Ended(w, key), key);
  }

  // -- other sessions ---------------------------------------------------------------------

  lemma KeptBegunElsewhere(w: World, id: StashId, ok: bool, key: Key)
    requires Invariant(w) && id in w.stashes && w.stashes[id].owner != key
    ensures var r := Kept(Begun(w, id, ok), id); Sound(r) && Elsewhere(w, r, key)
  {
    BegunKeeps(w, id, ok);
    BegunElsewhere(w, id, ok, key);
    OwnerStays(w, id, ok);
    KeptElsewhere(Begun(w, id, ok), id, key);
    ElsewhereChain(w, Begun(w, id, ok), Kept(Begun(w, id, ok), id), key);
  }

  lemma OwnerStays(w: World, id: StashId, ok: bool)
    requires id in w.stashes
    ensures id in Begun(w, id, ok).stashes && Begun(w, id, ok).stashes[id].owner == w.stashes[id].owner
  {
  }

  lemma ObservingElsewhere(w: World, id: StashId, ok: bool, now: Time, key: Key)
    requires Invariant(w) && id in w.stashes && w.stashes[id].owner != key
    ensures Sound(Observing(w, id, ok, now)) && Elsewhere(w, Observing(w, id, ok, now), key)
  {
    StartedKeeps(w, id, now);
    StartedElsewhere(w, id, now, key);
    KeptBegunElsewhere(Started(w, id, now), id, ok, key);
    ElsewhereChain(w, Started(w, id, now), Observing(w, id, ok, now), key);
  }

  lemma RoutingElsewhere(w: World, other: Key, id: StashId, route: Route, key: Key)
    requires Invariant(w) && id in w.stashes && w.stashes[id].owner == other && other != key
    ensures Sound(Routing(w, other, id, route)) && Elsewhere(w, Routing(w, other, id, route), key)
  {
    RoutingKeeps(w, other, id, route);
    if route.Direct? {
      KeptBegunElsewhere(w, id, route.ok, key);
    } else if route.Await? {
      WaitingElsewhere(w, w.waiting[route.task := Waiter(other, id)], key);
    } else {
      SameElsewhere(w, key);
    }
  }

  // Only who waits changed, and nobody of this session.
  lemma WaitingElsewhere(w: World, waiting: map<TaskId, Waiter>, key: Key)
    requires Sound(w) && Sound(w.(waiting := waiting))
    requires forall t :: t in waiting && waiting[t].key == key ==> t in w.waiting && w.waiting[t] == waiting[t]
    ensures Elsewhere(w, w.(waiting := waiting), key)
  {
    DoneStays(w, w.(waiting := waiting));
  }

  lemma ResolvedElsewhere(w: World, other: Key, route: Route, now: Time, key: Key)
    requires Invariant(w) && other != key
    ensures Sound(Resolved(w, other, route, now)) && Elsewhere(w, Resolved(w, other, route, now), key)
  {
    var (w1, id) := Obtained(w, other);
    ObtainedKeeps(w, other);
    ObtainedElsewhere(w, other, key);
    if route.Observe? {
      ObservingElsewhere(w1, id, route.ok, now, key);
      ElsewhereChain(w, w1, Resolved(w, other, route, now), key);
    } else if !route.Skip? && !(route.Await? && route.task in w.waiting) {
      StampedElsewhere(w1, id, now, key);
      RoutingElsewhere(Started(Flushed(w1, id), id, now), other, id, route, key);
      ElsewhereChain(w, w1, Started(Flushed(w1, id), id, now), key);
      ElsewhereChain(w, Started(Flushed(w1, id), id, now), Resolved(w, other, route, now), key);
    } else {
      SameElsewhere(w, key);
    }
  }

  lemma StampedElsewhere(w: World, id: StashId, now: Time, key: Key)
    requires Invariant(w) && id in w.stashes && w.stashes[id].owner != key
    ensures var r := Started(Flushed(w, id), id, now);
            Invariant(r) && Elsewhere(w, r, key) && id in r.stashes && r.stashes[id].owner == w.stashes[id].owner
  {
    FlushedKeeps(w, id);
    FlushedElsewhere(w, id, key);
    StartedKeeps(Flushed(w, id), id, now);
    StartedElsewhere(Flushed(w, id), id, now, key);
    ElsewhereChain(w, Flushed(w, id), Started(Flushed(w, id), id, now), key);
  }

  lemma GoneOnElsewhere(w: World, id: StashId, outcome: Outcome, key: Key)
    requires Invariant(w) && id in w.stashes && w.stashes[id].owner != key
    ensures Sound(GoneOn(w, id, outcome)) && Elsewhere(w, GoneOn(w, id, outcome), key)
  {
    KeptKeeps(w, id);
    KeptElsewhere(w, id, key);
    if outcome.Routed? {
      KeptBegunElsewhere(Kept(w, id), id, outcome.ok, key);
      ElsewhereChain(w, Kept(w, id), GoneOn(w, id, outcome), key);
    } else {
      SameElsewhere(w, key);
    }
  }

  lemma ResumedElsewhere(w: World, task: TaskId, outcome: Outcome, key: Key)
    requires Invariant(w) && task in w.waiting && w.waiting[task].key != key
    ensures Sound(Resumed(w, task, outcome)) && Elsewhere(w, Resumed(w, task, outcome), key)
  {
    var w1 := w.(waiting := w.waiting - {task});
    ReferencesKeep(w, w1);
    WaitingElsewhere(w, w.waiting - {task}, key);
    GoneOnElsewhere(w1, w.waiting[task].stash, outcome, key);
    ElsewhereChain(w, w1, Resumed(w, task, outcome), key);
  }

  lemma FedElsewhere(w: World, id: StashId, usage: Usage, failed: bool, key: Key)
    requires Sound(w) && id in w.stashes && w.stashes[id].owner != key
    ensures Sound(Fed(w, id, usage, failed)) && Elsewhere(w, Fed(w, id, usage, failed), key)
  {
    DoneStays(w, Fed(w, id, usage, failed));
  }

  lemma OutputElsewhere(w: World, other: Key, usage: Usage, failed: bool, terminal: bool, key: Key)
    requires Sound(w) && other != key
    ensures var r := OutputSeen(w, other, usage, failed, terminal); Sound(r) && Elsewhere(w, r, key)
  {
    if other in w.table {
      var id := w.table[other];
      var w1 := Fed(w, id, usage, failed);
      FedElsewhere(w, id, usage, failed, key);
      if IsOpen(w1.stashes[id]) && (terminal || HasUsage(usage)) {
        CompletedElsewhere(w1, id, Some(usage), key);
        ElsewhereChain(w, w1, OutputSeen(w, other, usage, failed, terminal), key);
      }
    } else {
      SameElsewhere(w, key);
    }
  }

  lemma EndedElsewhere(w: World, other: Key, key: Key)
    requires Sound(w) && other != key
    ensures Sound(Ended(w, other)) && Elsewhere(w, Ended(w, other), key)
  {
    if other in w.table {
      FlushedElsewhere(w, w.table[other], key);
      DoneStays(Flushed(w, w.table[other]), Ended(w, other));
    } else {
      SameElsewhere(w, key);
    }
  }

  lemma EvictedElsewhere(w: World, now: Time, key: Key)
    requires Sound(w) && (key in w.table ==> !Stale(w, key, now))
    ensures Sound(Evicted(w, now)) && Elsewhere(w, Evicted(w, now), key)
  {
    DoneStays(w, Evicted(w, now));
  }

  // -- the theorem ------------------------------------------------------------------------

  lemma ElsewhereStep(w: World, e: Event, key: Key)
    requires Invariant(w) && Orderly(w, e, key)
    requires match e
             case Resolve(k, _, _) => k != key
             case Resume(task, _) => task in w.waiting && w.waiting[task].key != key
             case Output(k, _, _, _) => k != key
             case End(k) => k != key
             case Evict(_) => true
    ensures Sound(Step(w, e)) && Elsewhere(w, Step(w, e), key)
  {
    match e
    case Resolve(k, route, now) => ResolvedElsewhere(w, k, route, now, key);
    case Resume(task, outcome) => ResumedElsewhere(w, task, outcome, key);
    case Output(k, usage, failed, terminal) => OutputElsewhere(w, k, usage, failed, terminal, key);
    case End(k) => EndedElsewhere(w, k, key);
    case Evict(now) => EvictedElsewhere(w, now, key);
  }

  lemma OwnStep(w: World, e: Event, key: Key)
    requires Invariant(w) && Settled(w, key) && Orderly(w, e, key)
    requires match e
             case Resolve(k, _, _) => k == key
             case Resume(task, _) => WaitsFor(w, task, key)
             case Output(k, _, _, _) => k == key
             case End(k) => k == key
             case Evict(_) => false
    ensures Sound(Step(w, e)) && Settled(Step(w, e), key)
  {
    match e
    case Resolve(k, route, now) => ResolvedOwn(w, key, route, now);
    case Resume(task, outcome) => ResumedOwn(w, task, outcome, key);
    case Output(k, usage, failed, terminal) => OutputOwn(w, key, usage, failed, terminal);
    case End(k) => EndedOwn(w, key);
  }

  predicate Concerns(w: World, e: Event, key: Key) {
    match e
    case Resolve(k, _, _) => k == key
    case Resume(task, _) => WaitsFor(w, task, key)
    case Output(k, _, _, _) => k == key
    case End(k) => k == key
    case Evict(_) => false
  }

  lemma StepSettled(w: World, e: Event, key: Key)
    requires Invariant(w) && Settled(w, key) && Orderly(w, e, key)
    ensures Sound(Step(w, e)) && Settled(Step(w, e), key)
  {
    if Concerns(w, e, key) {
      OwnStep(w, e, key);
    } else if e.Resume? && e.task !in w.waiting {
    } else {
      ElsewhereStep(w, e, key);
      ElsewhereSettled(w, Step(w, e), key);
    }
  }

  ghost predicate Keeps(w: World, key: Key) {
    Invariant(w) && Settled(w, key)
  }

  lemma NextKeeps(w: World, e: Event, key: Key)
    requires Keeps(w, key) && Orderly(w, e, key)
    ensures Keeps(Next(w, e), key)
  {
    StepKeeps(w, e);
    StepSettled(w, e, key);
  }

  /** When the hooks of a session do not overlap and it is not evicted, whatever other sessions do,
      its session_end leaves every row recorded for it completed, exactly once. */
  lemma SessionEndCompletesAll(events: seq<Event>, key: Key, r: RequestId)
    requires Allowed((w, e) => Orderly(w, e, key), Next, EMPTY, events)
    requires Orderly(Reached(events), End(key), key)
    requires var w := Reached(events); r in w.recorded && w.recorded[r] == key
    ensures var done := Next(Reached(events), End(key)).completed;
            exists i :: 0 <= i < |done| && done[i].id == r && forall j :: 0 <= j < |done| && done[j].id == r ==> j == i
  {
    var keep := (w: World) => Keeps(w, key);
    var orderly := (w, e) => Orderly(w, e, key);
    forall w, e: Event | keep(w) && orderly(w, e)
      ensures keep(Next(w, e))
    {
      NextKeeps(w, e, key);
    }
    AlwaysAfterAllowed(keep, orderly, Next, EMPTY, events);
    var w := Reached(events);
    EndedOwn(w, key);
    EndedRecorded(w, key);
    EndedKeeps(w, key);
    assert Done(Ended(w, key), r);
  }

  lemma EndedRecorded(w: World, key: Key)
    requires Sound(w)
    ensures Ended(w, key).recorded == w.recorded
  {
  }
}
