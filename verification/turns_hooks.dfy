/** What each hook does to the stashes and to the request rows, told by their fields alone. */
module TurnsHooks {
  import opened Wrappers
  import opened Turns

  // The row is open on the session's stash.
  predicate HasOpen(w: World, key: Key, r: RequestId) {
    && key in w.table && w.table[key] in w.stashes
    && w.stashes[w.table[key]].request == Some(r) && !w.stashes[w.table[key]].finalized
  }

  predicate Counts(u: Usage) {
    u.prompt > 0 || u.completion > 0 || u.total > 0
  }

  // What a row is flushed with: what its stash has accumulated.
  function Totals(s: Stash): Option<Usage> {
    if s.tokens.Some? && (s.tokens.value.input > 0 || s.tokens.value.output > 0)
    then Some(Usage(s.tokens.value.input, s.tokens.value.output, s.tokens.value.input + s.tokens.value.output)) else None
  }

  predicate OneCompleted(w: World, r: World, id: RequestId, usage: Option<Usage>) {
    && |r.completed| == |w.completed| + 1 && r.completed[..|w.completed|] == w.completed
    && r.completed[|w.completed|].id == id && r.completed[|w.completed|].usage == usage
  }

  // Nothing of another session, and no other stash, has changed.
  ghost predicate OnlyHere(w: World, r: World, key: Key, id: StashId) {
    && (forall x :: x in w.stashes && x != id ==> x in r.stashes && r.stashes[x] == w.stashes[x])
    && (forall x :: x in r.stashes ==> x in w.stashes || x == id)
    && (forall k :: k != key ==> (k in w.table <==> k in r.table) && (k in w.table ==> r.table[k] == w.table[k]))
  }

  // The session's stash; the next new one if it has none.
  function StashOf(w: World, key: Key): StashId {
    if key in w.table then w.table[key] else w.nextStash
  }

  // -- llm_output -------------------------------------------------------------------------

  // The counts of an output join those of the stash.
  predicate Fills(was: Stash, s: Stash, usage: Usage, failed: bool) {
    && s.owner == was.owner && s.request == was.request && s.started == was.started && s.hadError == (was.hadError || failed)
    && s.tokens == if !Counts(usage) then was.tokens
                   else if was.tokens.None? then Some(Tokens(usage.prompt, usage.completion))
                   else Some(Tokens(was.tokens.value.input + usage.prompt, was.tokens.value.output + usage.completion))
  }

  ghost predicate OutputDone(w: World, r: World, key: Key, usage: Usage, failed: bool, terminal: bool) {
    if key !in w.table then r == w
    else
      var id := w.table[key];
      && id in w.stashes && id in r.stashes && r.table == w.table && r.recorded == w.recorded && OnlyHere(w, r, key, id)
      && Fills(w.stashes[id], r.stashes[id], usage, failed)
      && if w.stashes[id].request.Some? && !w.stashes[id].finalized && (terminal || Counts(usage))
         then && r.stashes[id].finalized
              && OneCompleted(w, r, w.stashes[id].request.value,
                              if Totals(r.stashes[id]).Some? then Totals(r.stashes[id]) else if Counts(usage) then Some(usage) else None)
         else r.stashes[id].finalized == w.stashes[id].finalized && r.completed == w.completed
  }

  lemma FeedDoes(w: World, id: StashId, usage: Usage, failed: bool)
    requires id in w.stashes
    ensures var r := Fed(w, id, usage, failed);
            && id in r.stashes && Fills(w.stashes[id], r.stashes[id], usage, failed)
            && r.stashes[id].finalized == w.stashes[id].finalized && OnlyHere(w, r, w.stashes[id].owner, id)
            && r.table == w.table && r.recorded == w.recorded && r.completed == w.completed
  {
  }

  lemma CompleteDoes(w: World, id: StashId, usage: Usage)
    requires id in w.stashes && w.stashes[id].request.Some? && w.stashes[id].owner in w.table && w.table[w.stashes[id].owner] == id
    ensures var r := Completed(w, id, Some(usage));
            && id in r.stashes && r.stashes[id] == w.stashes[id].(finalized := true) && OnlyHere(w, r, w.stashes[id].owner, id)
            && r.table == w.table && r.recorded == w.recorded
            && OneCompleted(w, r, w.stashes[id].request.value,
                            if Totals(w.stashes[id]).Some? then Totals(w.stashes[id]) else if Counts(usage) then Some(usage) else None)
  {
  }

  lemma FeedOnly(w: World, r: World, key: Key, usage: Usage, failed: bool, terminal: bool)
    requires Sound(w) && key in w.table && r == Fed(w, w.table[key], usage, failed)
    requires !(IsOpen(w.stashes[w.table[key]]) && (terminal || Counts(usage)))
    ensures OutputDone(w, r, key, usage, failed, terminal)
  {
    FeedDoes(w, w.table[key], usage, failed);
  }

  lemma FeedAndComplete(w: World, r: World, key: Key, usage: Usage, failed: bool, terminal: bool)
    requires Sound(w) && key in w.table && IsOpen(w.stashes[w.table[key]]) && (terminal || Counts(usage))
    requires var w1 := Fed(w, w.table[key], usage, failed);
             w.table[key] in w1.stashes && w1.stashes[w.table[key]].request.Some? && r == Completed(w1, w.table[key], Some(usage))
    ensures OutputDone(w, r, key, usage, failed, terminal)
  {
    var id := w.table[key];
    FeedDoes(w, id, usage, failed);
    CompleteDoes(Fed(w, id, usage, failed), id, usage);
  }

  /** An output feeds the session's stash, and completes its open row exactly if it is terminal or
      brings counts: with the totals so far or, where they are zero, with its own. */
  lemma OutputStep(w: World, key: Key, usage: Usage, failed: bool, terminal: bool)
    requires Sound(w)
    ensures OutputDone(w, Step(w, Output(key, usage, failed, terminal)), key, usage, failed, terminal)
  {
    var r := Step(w, Output(key, usage, failed, terminal));
    if key in w.table {
      if IsOpen(w.stashes[w.table[key]]) && (terminal || Counts(usage)) {
        FeedAndComplete(w, r, key, usage, failed, terminal);
      } else {
        FeedOnly(w, r, key, usage, failed, terminal);
      }
    }
  }

  /** In a world of hooks: an open row is done after an output of its session if and only if the output
      is terminal or one of the three counts is positive; if not, it stays open on its stash. */
  lemma OutputCompletes(w: World, key: Key, usage: Usage, failed: bool, terminal: bool, row: RequestId)
    requires Invariant(w) && HasOpen(w, key, row)
    ensures var r := Step(w, Output(key, usage, failed, terminal));
            && (Done(r, row) <==> terminal || usage.prompt > 0 || usage.completion > 0 || usage.total > 0)
            && (!Done(r, row) ==> HasOpen(r, key, row) && r.table == w.table)
  {
    var r := Step(w, Output(key, usage, failed, terminal));
    OutputStep(w, key, usage, failed, terminal);
    if terminal || Counts(usage) {
      assert r.completed[|w.completed|].id == row;
    }
  }

  // -- rows that are flushed and opened ---------------------------------------------------

  // The open row of the stash, if any, is completed with what the stash has.
  ghost predicate RowFlushed(w: World, r: World, id: StashId) {
    if id in w.stashes && w.stashes[id].request.Some? && !w.stashes[id].finalized
    then OneCompleted(w, r, w.stashes[id].request.value, Totals(w.stashes[id]))
    else r.completed == w.completed
  }

  // A new row is open on the stash, which begins anew; or it could not be recorded.
  predicate RowOpened(w: World, r: World, id: StashId, key: Key, ok: bool) {
    && id in r.stashes && r.nextRequest == w.nextRequest + 1 && key in r.table && r.table[key] == id
    && r.recorded == (if ok then w.recorded[w.nextRequest := key] else w.recorded)
    && r.stashes[id].owner == key && r.stashes[id].request == (if ok then Some(w.nextRequest) else None)
    && !r.stashes[id].finalized && r.stashes[id].tokens == None && !r.stashes[id].hadError
  }

  // No row is opened; a flushed one is closed.
  predicate RowClosed(w: World, r: World, id: StashId) {
    && id in r.stashes && r.nextRequest == w.nextRequest && r.recorded == w.recorded
    && (r.stashes[id].request.Some? ==> id in w.stashes && r.stashes[id].request == w.stashes[id].request && r.stashes[id].finalized)
  }

  ghost predicate ResolveDone(w: World, r: World, key: Key, route: Route, now: Time) {
    var id := StashOf(w, key);
    if route.Skip? || (route.Await? && route.task in w.waiting) then r == w
    else
      && OnlyHere(w, r, key, id) && RowFlushed(w, r, id) && id in r.stashes && r.stashes[id].started == Some(now)
      && match route
         case Observe(ok) => RowOpened(w, r, id, key, ok) && r.waiting == w.waiting
         case Direct(ok) => RowOpened(w, r, id, key, ok) && r.waiting == w.waiting
         case Await(task) => RowClosed(w, r, id) && r.table.Keys == w.table.Keys && r.waiting == w.waiting[task := Waiter(key, id)]
         case _ => RowClosed(w, r, id) && r.table.Keys == w.table.Keys && r.waiting == w.waiting
  }

  lemma FlushDoes(w: World, id: StashId)
    requires id in w.stashes
    ensures var r := Flushed(w, id);
            && RowFlushed(w, r, id) && RowClosed(w, r, id) && OnlyHere(w, r, w.stashes[id].owner, id)
            && r.waiting == w.waiting && r.nextStash == w.nextStash
            && r.stashes[id] == w.stashes[id].(finalized := r.stashes[id].finalized)
            && r.table == if IsOpen(w.stashes[id]) then w.table[w.stashes[id].owner := id] else w.table
  {
  }

  lemma OpenDoes(w: World, id: StashId, ok: bool)
    requires id in w.stashes
    ensures var r, key := Kept(Opened(w, id, ok), id), w.stashes[id].owner;
            && RowOpened(w, r, id, key, ok) && OnlyHere(w, r, key, id) && r.waiting == w.waiting
            && r.completed == w.completed && r.stashes[id].started == w.stashes[id].started
  {
  }

  lemma BeginDoes(w: World, id: StashId, ok: bool)
    requires id in w.stashes
    ensures var r, key := Kept(Begun(w, id, ok), id), w.stashes[id].owner;
            && RowFlushed(w, r, id) && RowOpened(w, r, id, key, ok) && OnlyHere(w, r, key, id) && r.waiting == w.waiting
            && r.stashes[id].started == w.stashes[id].started
  {
    FlushDoes(w, id);
    OpenDoes(Flushed(w, id), id, ok);
  }

  lemma ObtainDoes(w: World, key: Key)
    requires Sound(w)
    ensures var (r, id) := Obtained(w, key);
            && id == StashOf(w, key) && id in r.stashes && r.stashes[id].owner == key && OnlyHere(w, r, key, id)
            && r == w.(stashes := r.stashes, nextStash := r.nextStash, seen := r.seen)
            && (if key in w.table then id in w.stashes && r.stashes[id] == w.stashes[id]
                else id !in w.stashes && r.stashes[id].request.None?)
  {
  }

  lemma StampDoes(w: World, id: StashId, now: Time)
    requires id in w.stashes
    ensures var r := Started(w, id, now);
            && r == w.(stashes := r.stashes) && id in r.stashes && r.stashes[id] == w.stashes[id].(started := Some(now))
            && OnlyHere(w, r, w.stashes[id].owner, id)
  {
  }

  // The session's stash, flushed and stamped.
  lemma ReadyDoes(w: World, key: Key, now: Time) returns (w3: World, id: StashId)
    requires Sound(w)
    ensures (w3, id) == (var (w1, i) := Obtained(w, key); (Started(Flushed(w1, i), i, now), i))
    ensures id == StashOf(w, key) && id in w3.stashes && w3.stashes[id].owner == key && w3.stashes[id].started == Some(now)
    ensures OnlyHere(w, w3, key, id) && RowFlushed(w, w3, id) && RowClosed(w, w3, id) && !IsOpen(w3.stashes[id])
    ensures w3.waiting == w.waiting && w3.table == w.table
  {
    var (w1, i) := Obtained(w, key);
    ObtainDoes(w, key);
    FlushDoes(w1, i);
    StampDoes(Flushed(w1, i), i, now);
    w3, id := Started(Flushed(w1, i), i, now), i;
  }

  // The session's stash, stamped.
  lemma StampedDoes(w: World, key: Key, now: Time) returns (w2: World, id: StashId)
    requires Sound(w)
    ensures (w2, id) == (var (w1, i) := Obtained(w, key); (Started(w1, i, now), i))
    ensures id == StashOf(w, key) && id in w2.stashes && w2.stashes[id].owner == key && w2.stashes[id].started == Some(now)
    ensures OnlyHere(w, w2, key, id) && w2.table == w.table && w2.waiting == w.waiting
    ensures w2.completed == w.completed && w2.recorded == w.recorded && w2.nextRequest == w.nextRequest
    ensures if key in w.table then id in w.stashes && w2.stashes[id] == w.stashes[id].(started := Some(now))
            else id !in w.stashes && w2.stashes[id].request.None?
  {
    var (w1, i) := Obtained(w, key);
    ObtainDoes(w, key);
    StampDoes(w1, i, now);
    w2, id := Started(w1, i, now), i;
  }

  lemma ObserveDoes(w: World, key: Key, ok: bool, now: Time)
    requires Sound(w)
    ensures ResolveDone(w, Resolved(w, key, Observe(ok), now), key, Observe(ok), now)
  {
    var w2, id := StampedDoes(w, key, now);
    BeginDoes(w2, id, ok);
  }

  lemma DirectDoes(w: World, key: Key, ok: bool, now: Time)
    requires Sound(w)
    ensures ResolveDone(w, Resolved(w, key, Direct(ok), now), key, Direct(ok), now)
  {
    var w3, id := ReadyDoes(w, key, now);
    BeginDoes(w3, id, ok);
  }

  lemma WaitDoes(w: World, key: Key, route: Route, now: Time)
    requires Sound(w) && !route.Observe? && !route.Direct?
    ensures ResolveDone(w, Resolved(w, key, route, now), key, route, now)
  {
    var w3, id := ReadyDoes(w, key, now);
  }

  /** before_model_resolve, up to its first await: the open row of the session is completed; where the
      route is known a new one is opened, and where it is not the handler waits with the stash. */
  lemma ResolveStep(w: World, key: Key, route: Route, now: Time)
    requires Sound(w)
    ensures ResolveDone(w, Step(w, Resolve(key, route, now)), key, route, now)
  {
    match route
    case Observe(ok) => ObserveDoes(w, key, ok, now);
    case Direct(ok) => DirectDoes(w, key, ok, now);
    case _ => WaitDoes(w, key, route, now);
  }

  // -- behind the await, at the end, by age -----------------------------------------------

  ghost predicate ResumeDone(w: World, r: World, task: TaskId, outcome: Outcome) {
    if task !in w.waiting then r == w
    else
      var id, key := w.waiting[task].stash, w.waiting[task].key;
      && r.waiting == w.waiting - {task} && OnlyHere(w, r, key, id)
      && match outcome
         case Failed => r == w.(waiting := r.waiting)
         case Unrouted => r == w.(waiting := r.waiting, table := w.table[key := id])
         case Routed(ok) => RowFlushed(w, r, id) && RowOpened(w, r, id, key, ok)
  }

  /** The rest of before_model_resolve goes on with the stash it held, whatever became of it: the open
      row on it is completed and a new one opened; without a route the stash is put back only. */
  lemma ResumeStep(w: World, task: TaskId, outcome: Outcome)
    requires Sound(w)
    ensures ResumeDone(w, Step(w, Resume(task, outcome)), task, outcome)
  {
    if task in w.waiting && outcome.Routed? {
      var id := w.waiting[task].stash;
      var w1 := Kept(w.(waiting := w.waiting - {task}), id);
      BeginDoes(w1, id, outcome.ok);
    }
  }

  /** session_end: the open row of the session is completed, and the session has no stash any more. */
  lemma EndStep(w: World, key: Key)
    requires Sound(w)
    ensures var r := Step(w, End(key));
            && key !in r.table && OnlyHere(w, r, key, StashOf(w, key)) && r.recorded == w.recorded
            && if key in w.table then RowFlushed(w, r, w.table[key]) else r == w
  {
    if key in w.table {
      FlushDoes(w, w.table[key]);
    }
  }

  /** Eviction forgets exactly the sessions whose stash was stamped more than half an hour ago, and
      completes nothing. */
  lemma EvictStep(w: World, now: Time)
    requires Sound(w)
    ensures var r := Step(w, Evict(now));
            && r == w.(table := r.table)
            && (forall key :: key in r.table <==>
                  && key in w.table
                  && match w.stashes[w.table[key]].started
                     case None => true
                     case Some(started) => started == 0 || now - started <= 30 * 60 * 1000)
            && forall key :: key in r.table ==> r.table[key] == w.table[key]
  {
  }
}
