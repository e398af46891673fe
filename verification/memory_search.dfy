/** Windowed nearest-neighbour search against the exhaustive one. */
module MemorySearch {
  import opened Wrappers
  import opened MemoryTables
  import opened Seqs

  type Distance = (Embedding, Embedding) -> real

  // Absent filters are None; k is already resolved from the call and the configuration.
  datatype Query = Query(embedding: Embedding, k: int, tier: Option<int>, model: Option<string>, strategy: Option<string>,
                         user: Option<string>, threshold: real)

  // -- the exhaustive search --------------------------------------------------------------

  function IdsBelow(vectors: map<ItemId, Vector>, n: int): (ids: seq<ItemId>)
    decreases if n < 0 then 0 else n
  {
    if n <= 0 then [] else IdsBelow(vectors, n - 1) + if n - 1 in vectors then [n - 1] else []
  }

  function DistanceOf(vectors: map<ItemId, Vector>, q: Query, dist: Distance, id: ItemId): real {
    if id in vectors then dist(vectors[id].embedding, q.embedding) else 0.0
  }

  // All rows by distance; rows at the same distance by id.
  function Ranked(t: Tables, q: Query, dist: Distance): seq<ItemId>
    requires t.vectors.Some?
  {
    SortBy((a, b) => DistanceOf(t.vectors.value, q, dist, a) < DistanceOf(t.vectors.value, q, dist, b),
           IdsBelow(t.vectors.value, t.nextId))
  }

  predicate TierPasses(vectors: map<ItemId, Vector>, q: Query, id: ItemId) {
    q.tier.Some? ==> id in vectors && vectors[id].tier == Bit(q.tier.value)
  }

  predicate Joined(items: map<ItemId, Item>, q: Query, id: ItemId) {
    && id in items
    && (q.model.Some? ==> items[id].model == q.model.value)
    && (q.strategy.Some? ==> items[id].strategy == q.strategy)
    && (q.user.Some? ==> items[id].user == q.user)
  }

  predicate Scores(vectors: map<ItemId, Vector>, q: Query, dist: Distance, id: ItemId) {
    1.0 - DistanceOf(vectors, q, dist, id) >= q.threshold
  }

  predicate Passes(t: Tables, q: Query, dist: Distance, id: ItemId)
    requires t.vectors.Some?
  {
    TierPasses(t.vectors.value, q, id) && Joined(t.items, q, id) && Scores(t.vectors.value, q, dist, id)
  }

  // The first k rows by distance that pass every filter and the threshold.
  function Exhaustive(t: Tables, q: Query, dist: Distance): seq<ItemId>
    requires t.vectors.Some?
  {
    Take(Filter(id => Passes(t, q, dist, id), Ranked(t, q, dist)), q.k)
  }

  // -- the windowed search ----------------------------------------------------------------

  predicate Narrowed(q: Query) {
    q.model.Some? || q.strategy.Some? || q.user.Some?
  }

  function Window(q: Query): int {
    var w := q.k * if Narrowed(q) then 8 else 3;
    if w >= q.k then w else q.k
  }

  // Rows of the right tier, by distance: what the vector index is asked for.
  function OfTier(t: Tables, q: Query, dist: Distance): seq<ItemId>
    requires t.vectors.Some?
  {
    Filter(id => TierPasses(t.vectors.value, q, id), Ranked(t, q, dist))
  }

  // The join of the nearest rows with the items, filtered.
  function Rows(t: Tables, q: Query, dist: Distance): seq<ItemId>
    requires t.vectors.Some?
  {
    Filter(id => Joined(t.items, q, id), Take(OfTier(t, q, dist), Window(q)))
  }

  // The first k of the rows that score enough.
  function Scored(vectors: map<ItemId, Vector>, q: Query, dist: Distance, rows: seq<ItemId>): seq<ItemId> {
    Take(Filter(id => Scores(vectors, q, dist, id), rows), q.k)
  }

  function Found(t: Tables, q: Query, dist: Distance): seq<ItemId>
    requires t.vectors.Some?
  {
    Scored(t.vectors.value, q, dist, Rows(t, q, dist))
  }

  // -- the two agree ----------------------------------------------------------------------

  lemma {:induction false} IdsAre(vectors: map<ItemId, Vector>, n: int)
    ensures forall id :: id in IdsBelow(vectors, n) <==> 0 <= id < n && id in vectors
    ensures NoDup(IdsBelow(vectors, n))
    decreases if n < 0 then 0 else n
  {
    if n > 0 {
      IdsAre(vectors, n - 1);
    }
  }

  lemma NearerIsWeak(vectors: map<ItemId, Vector>, q: Query, dist: Distance)
    ensures WeakOrder((a, b) => DistanceOf(vectors, q, dist, a) < DistanceOf(vectors, q, dist, b))
  {
  }

  // Every stored vector is ranked exactly once, nearer ones first.
  lemma RankedAll(t: Tables, q: Query, dist: Distance)
    requires InStep(t) && t.vectors.Some?
    ensures var r := Ranked(t, q, dist);
            && NoDup(r) && (forall id :: id in r <==> id in t.items)
            && SortedBy((a, b) => DistanceOf(t.vectors.value, q, dist, a) < DistanceOf(t.vectors.value, q, dist, b), r)
  {
    var nearer := (a, b) => DistanceOf(t.vectors.value, q, dist, a) < DistanceOf(t.vectors.value, q, dist, b);
    IdsAre(t.vectors.value, t.nextId);
    NearerIsWeak(t.vectors.value, q, dist);
    SortElements(nearer, IdsBelow(t.vectors.value, t.nextId));
    SortNoDup(nearer, IdsBelow(t.vectors.value, t.nextId));
    SortSorts(nearer, IdsBelow(t.vectors.value, t.nextId));
  }

  lemma TakeAll<T>(xs: seq<T>, n: int)
    requires n >= |xs|
    ensures Take(xs, n) == xs
  {
  }

  lemma TakePrefix<T>(xs: seq<T>, ys: seq<T>, n: int)
    requires xs <= ys
    ensures Take(xs, n) <= Take(ys, n)
    ensures |xs| >= n || xs == ys ==> Take(xs, n) == Take(ys, n)
  {
  }

  // Filtering the rows and then the scores is filtering all at once.
  lemma FiltersMerge(t: Tables, q: Query, dist: Distance, ids: seq<ItemId>)
    requires t.vectors.Some?
    ensures Filter(id => Scores(t.vectors.value, q, dist, id), Filter(id => Joined(t.items, q, id), ids))
            == Filter(id => Joined(t.items, q, id) && Scores(t.vectors.value, q, dist, id), ids)
  {
    FilterTwice(id => Scores(t.vectors.value, q, dist, id), id => Joined(t.items, q, id),
                id => Joined(t.items, q, id) && Scores(t.vectors.value, q, dist, id), ids);
  }

  lemma AllMerge(t: Tables, q: Query, dist: Distance)
    requires t.vectors.Some?
    ensures Filter(id => Joined(t.items, q, id) && Scores(t.vectors.value, q, dist, id), OfTier(t, q, dist))
            == Filter(id => Passes(t, q, dist, id), Ranked(t, q, dist))
  {
    FilterTwice(id => Joined(t.items, q, id) && Scores(t.vectors.value, q, dist, id), id => TierPasses(t.vectors.value, q, id),
                id => Passes(t, q, dist, id), Ranked(t, q, dist));
  }

  /** Whatever the filters, the windowed search returns a prefix of the exhaustive answer; it is
      the whole answer when k rows were found or the window covers all rows of the tier. */
  lemma SearchIsPrefix(t: Tables, q: Query, dist: Distance)
    requires t.vectors.Some?
    ensures Found(t, q, dist) <= Exhaustive(t, q, dist)
    ensures |Found(t, q, dist)| == q.k || Window(q) >= |OfTier(t, q, dist)| ==> Found(t, q, dist) == Exhaustive(t, q, dist)
  {
    var near := Take(OfTier(t, q, dist), Window(q));
    var rest := OfTier(t, q, dist)[|near|..];
    var good := id => Joined(t.items, q, id) && Scores(t.vectors.value, q, dist, id);
    assert OfTier(t, q, dist) == near + rest;
    FilterConcat(good, near, rest);
    FiltersMerge(t, q, dist, near);
    AllMerge(t, q, dist);
    TakePrefix(Filter(good, near), Filter(good, OfTier(t, q, dist)), q.k);
    if Window(q) >= |OfTier(t, q, dist)| {
      TakeAll(OfTier(t, q, dist), Window(q));
    }
  }

  lemma TakeMore<T>(xs: seq<T>, ys: seq<T>, n: int)
    requires n > 0 && |Take(xs, n)| < n
    ensures Take(xs + ys, n) == Take(xs, n) <==> ys == []
  {
    assert Take(xs, n) == xs;
    if ys == [] {
      assert xs + ys == xs;
    } else {
      assert |Take(xs + ys, n)| > |xs|;
    }
  }

  // The rows of the window that join and score.
  function InWindow(t: Tables, q: Query, dist: Distance): seq<ItemId>
    requires t.vectors.Some?
  {
    Filter(id => Joined(t.items, q, id) && Scores(t.vectors.value, q, dist, id), Take(OfTier(t, q, dist), Window(q)))
  }

  /** With filters the two agree exactly if at least k rows of the window join and score, or no row
      behind the window does. */
  lemma SearchAgreesExactly(t: Tables, q: Query, dist: Distance)
    requires t.vectors.Some? && q.k > 0
    ensures Found(t, q, dist) == Exhaustive(t, q, dist) <==>
            |InWindow(t, q, dist)| >= q.k
            || forall i :: 0 <= Window(q) <= i < |OfTier(t, q, dist)| ==>
                 !(Joined(t.items, q, OfTier(t, q, dist)[i]) && Scores(t.vectors.value, q, dist, OfTier(t, q, dist)[i]))
  {
    var near := Take(OfTier(t, q, dist), Window(q));
    var rest := OfTier(t, q, dist)[|near|..];
    var good := id => Joined(t.items, q, id) && Scores(t.vectors.value, q, dist, id);
    assert OfTier(t, q, dist) == near + rest;
    FilterConcat(good, near, rest);
    FiltersMerge(t, q, dist, near);
    AllMerge(t, q, dist);
    FilterElements(good, rest);
    if |InWindow(t, q, dist)| >= q.k {
      TakePrefix(Filter(good, near), Filter(good, OfTier(t, q, dist)), q.k);
    } else {
      TakeMore(Filter(good, near), Filter(good, rest), q.k);
      BehindWindow(good, OfTier(t, q, dist), Window(q));
    }
  }

  lemma BehindWindow<T>(good: T -> bool, xs: seq<T>, w: int)
    requires w > 0
    ensures var rest := xs[|Take(xs, w)|..];
            Filter(good, rest) == [] <==> forall i :: 0 <= w <= i < |xs| ==> !good(xs[i])
  {
    var rest := xs[|Take(xs, w)|..];
    FilterElements(good, rest);
    if forall i :: 0 <= w <= i < |xs| ==> !good(xs[i]) {
      FilterNone(good, rest);
    } else {
      var i :| 0 <= w <= i < |xs| && good(xs[i]);
      assert rest[i - w] == xs[i];
      assert xs[i] in Filter(good, rest);
    }
  }

  /** With no model, strategy or user filter the windowed search is the exhaustive one. */
  lemma SearchIsExhaustive(t: Tables, q: Query, dist: Distance)
    requires InStep(t) && t.vectors.Some? && !Narrowed(q) && q.k > 0
    ensures Found(t, q, dist) == Exhaustive(t, q, dist)
  {
    var all := OfTier(t, q, dist);
    var near := Take(all, Window(q));
    var good := id => Joined(t.items, q, id) && Scores(t.vectors.value, q, dist, id);
    var nearer := (a, b) => DistanceOf(t.vectors.value, q, dist, a) < DistanceOf(t.vectors.value, q, dist, b);
    SearchIsPrefix(t, q, dist);
    if Window(q) < |all| && |Found(t, q, dist)| < q.k {
      RankedAll(t, q, dist);
      FilterSorted(id => TierPasses(t.vectors.value, q, id), nearer, Ranked(t, q, dist));
      FilterElements(id => TierPasses(t.vectors.value, q, id), Ranked(t, q, dist));
      ScoresFirst(t, q, dist, all);
      ScoresFirst(t, q, dist, near);
      FiltersMerge(t, q, dist, near);
      AllMerge(t, q, dist);
      SameWhenShort(good, all, near, Filter(good, all), Filter(good, near));
    }
  }

  // Among joined rows in order of distance, those that score enough come first.
  lemma ScoresFirst(t: Tables, q: Query, dist: Distance, ids: seq<ItemId>)
    requires t.vectors.Some? && !Narrowed(q) && (forall id :: id in ids ==> id in t.items)
    requires SortedBy((a, b) => DistanceOf(t.vectors.value, q, dist, a) < DistanceOf(t.vectors.value, q, dist, b), ids)
    ensures var good := id => Joined(t.items, q, id) && Scores(t.vectors.value, q, dist, id);
            Filter(good, ids) <= ids && forall i :: 0 <= i < |ids| ==> (good(ids[i]) <==> i < |Filter(good, ids)|)
  {
    var nearer := (a, b) => DistanceOf(t.vectors.value, q, dist, a) < DistanceOf(t.vectors.value, q, dist, b);
    var scores := id => Scores(t.vectors.value, q, dist, id);
    var good := id => Joined(t.items, q, id) && Scores(t.vectors.value, q, dist, id);
    FilterIsPrefix(scores, nearer, ids);
    SameFilter(good, scores, ids);
    assert forall i :: 0 <= i < |ids| ==> ids[i] in ids;
  }

  lemma {:induction false} SameFilter<T>(p: T -> bool, q: T -> bool, xs: seq<T>)
    requires forall x :: x in xs ==> (p(x) <==> q(x))
    ensures Filter(p, xs) == Filter(q, xs)
  {
    if xs != [] {
      assert xs == [xs[0]] + xs[1..];
      SameFilter(p, q, xs[1..]);
    }
  }

  // If not all rows of the window pass, no row behind it does: passing rows are a prefix, of all
  // rows (passed) and of the window (found).
  lemma SameWhenShort<T>(good: T -> bool, all: seq<T>, near: seq<T>, passed: seq<T>, found: seq<T>)
    requires near <= all && passed <= all && found <= near && |found| < |near|
    requires forall i :: 0 <= i < |all| ==> (good(all[i]) <==> i < |passed|)
    requires forall i :: 0 <= i < |near| ==> (good(near[i]) <==> i < |found|)
    ensures passed == found
  {
    var n := |found|;
    assert near[n] == all[n];
    if n > 0 {
      assert near[n - 1] == all[n - 1];
    }
  }

  /** What the exhaustive answer is: at most k rows, each passing, nearest first; and a row that
      passes is only missing if there are k nearer ones (or as near). */
  lemma ExhaustiveIsNearest(t: Tables, q: Query, dist: Distance, id: ItemId)
    requires InStep(t) && t.vectors.Some? && q.k > 0 && id in t.items
    ensures var r := Exhaustive(t, q, dist);
            && |r| <= q.k
            && (forall i, j :: 0 <= i < j < |r| ==> DistanceOf(t.vectors.value, q, dist, r[i]) <= DistanceOf(t.vectors.value, q, dist, r[j]))
            && (id in r ==> Passes(t, q, dist, id))
            && (Passes(t, q, dist, id) && id !in r ==>
                  |r| == q.k && forall x :: x in r ==> DistanceOf(t.vectors.value, q, dist, x) <= DistanceOf(t.vectors.value, q, dist, id))
  {
    var nearer := (a, b) => DistanceOf(t.vectors.value, q, dist, a) < DistanceOf(t.vectors.value, q, dist, b);
    var passing := Filter(x => Passes(t, q, dist, x), Ranked(t, q, dist));
    RankedAll(t, q, dist);
    FilterElements(x => Passes(t, q, dist, x), Ranked(t, q, dist));
    FilterSorted(x => Passes(t, q, dist, x), nearer, Ranked(t, q, dist));
    var r := Exhaustive(t, q, dist);
    assert r <= passing;
    assert forall x :: x in r ==> x in passing;
    forall i, j | 0 <= i < j < |r|
      ensures DistanceOf(t.vectors.value, q, dist, r[i]) <= DistanceOf(t.vectors.value, q, dist, r[j])
    {
      assert r[i] == passing[i] && r[j] == passing[j] && !nearer(passing[j], passing[i]);
    }
    if id in passing && id !in r {
      var i :| 0 <= i < |passing| && passing[i] == id;
      forall x | x in r
        ensures DistanceOf(t.vectors.value, q, dist, x) <= DistanceOf(t.vectors.value, q, dist, id)
      {
        var j :| 0 <= j < |r| && r[j] == x;
        assert passing[j] == x && j < i;
        assert !nearer(passing[i], passing[j]);
      }
    }
  }
}
