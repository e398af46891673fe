/** The routing memory as an object over its tables. */
module MemoryBankClass {
  import opened Wrappers
  import opened MemoryTables
  import opened MemorySearch
  import opened Seqs

  datatype AddResult = Stored(id: ItemId) | Refused | DimensionMismatch

  datatype UpdateResult = Done(changed: bool) | EmptyModel

  datatype SearchRow = SearchRow(id: ItemId, tier: int, model: string, query: Option<string>, strategy: Option<string>,
                                 user: Option<string>, score: real, ts: int)

  function RowOf(t: Tables, q: Query, dist: Distance, id: ItemId): SearchRow
    requires id in t.items && t.vectors.Some?
  {
    var item := t.items[id];
    SearchRow(id, item.tier, item.model, item.query, item.strategy, item.user,
              1.0 - DistanceOf(t.vectors.value, q, dist, id), item.createdAt)
  }

  // The row passes every filter that is given, and is near enough.
  predicate Qualifies(t: Tables, q: Query, dist: Distance, id: ItemId) {
    && id in t.items && t.vectors.Some? && id in t.vectors.value
    && (q.tier.Some? ==> t.items[id].tier == if q.tier.value == 1 then 1 else 0)
    && (q.model.Some? ==> t.items[id].model == q.model.value)
    && (q.strategy.Some? ==> t.items[id].strategy == q.strategy)
    && (q.user.Some? ==> t.items[id].user == q.user)
    && 1.0 - dist(t.vectors.value[id].embedding, q.embedding) >= q.threshold
  }

  // A result is such a row: the columns of its item, and its similarity.
  predicate Answers(t: Tables, q: Query, dist: Distance, row: SearchRow) {
    && Qualifies(t, q, dist, row.id)
    && row.tier == t.items[row.id].tier && row.model == t.items[row.id].model && row.query == t.items[row.id].query
    && row.strategy == t.items[row.id].strategy && row.user == t.items[row.id].user && row.ts == t.items[row.id].createdAt
    && row.score == 1.0 - dist(t.vectors.value[row.id].embedding, q.embedding)
  }

  predicate NearestFirst(rows: seq<SearchRow>) {
    forall i, j :: 0 <= i < j < |rows| ==> rows[i].id != rows[j].id && rows[i].score >= rows[j].score
  }

  // A qualifying row is only missing when there are k results, all at least as near.
  ghost predicate NoneMissed(t: Tables, q: Query, dist: Distance, rows: seq<SearchRow>) {
    forall id :: Qualifies(t, q, dist, id) && (forall i :: 0 <= i < |rows| ==> rows[i].id != id) ==>
      |rows| == q.k && forall i :: 0 <= i < |rows| ==> rows[i].score >= 1.0 - dist(t.vectors.value[id].embedding, q.embedding)
  }

  // A search is answered at all when there is a vector table of the query's width.
  predicate Searchable(t: Tables, q: Query) {
    q.k > 0 && q.embedding != [] && t.vectors.Some? && t.vectorDim == Some(|q.embedding|)
  }

  // The columns of a new row: one bit of tier, and NULL for an empty text where the column has it.
  predicate IsRow(item: Item, tier: Option<int>, model: string, query: string, strategy: string, user: string, now: int) {
    && item.tier == (if tier == Some(1) then 1 else 0) && item.model == model && item.createdAt == now
    && item.query == (if query == "" then None else Some(query)) && item.strategy == (if strategy == "" then None else Some(strategy))
    && item.user == if user == "" then None else Some(user)
  }

  // What an update leaves in a row: a field that is not given stays, a tier is one bit, a text is
  // trimmed and null stored as empty, or as NULL where the column has it.
  predicate ColumnsSet(was: Item, now: Item, u: Update) {
    && now.query == was.query && now.createdAt == was.createdAt
    && now.tier == (if u.tier.Value? then (if u.tier.value == 1 then 1 else 0) else was.tier)
    && now.model == (match u.model case Undefined => was.model case Null => "" case Value(text) => Trim(text))
    && TextSet(was.strategy, now.strategy, u.strategy) && TextSet(was.user, now.user, u.user)
  }

  predicate TextSet(was: Option<string>, now: Option<string>, f: Field<string>) {
    match f
    case Undefined => now == was
    case Null => now == None
    case Value(text) => now == if Trim(text) == "" then None else Some(Trim(text))
  }

  class MemoryBank {
    var items: map<ItemId, Item>
    var nextId: ItemId
    var vectors: Option<map<ItemId, Vector>>
    var vectorDim: Option<nat>
    const maxQueryChars: int

    function State(): Tables
      reads this
    {
      Tables(items, nextId, vectors, vectorDim)
    }

    constructor (maxQueryChars: int)
      ensures State() == EMPTY && this.maxQueryChars == maxQueryChars
    {
      items, nextId, vectors, vectorDim := map[], 1, None, None;
      this.maxQueryChars := maxQueryChars;
    }

    method Restore(t: Tables)
      modifies this
      ensures State() == t
    {
      items, nextId, vectors, vectorDim := t.items, t.nextId, t.vectors, t.vectorDim;
    }

    method ResetVectorStore()
      modifies this
      ensures State() == Reset(old(State()))
    {
      vectors := None;
      items := map[];
      vectorDim := None;
    }

    // False is the mismatch that raises.
    method EnsureVectorTable(dim: nat) returns (ok: bool)
      modifies this
      ensures ok <==> WithVectorTable(old(State()), dim).Some?
      ensures State() == if ok then WithVectorTable(old(State()), dim).value else old(State())
    {
      if vectors.Some? && vectorDim.None? {
        ResetVectorStore();
      }
      if vectorDim.Some? {
        return vectorDim.value == dim;
      }
      if vectors.None? {
        vectors := Some(map[]);
      }
      vectorDim := Some(dim);
      return true;
    }

    function NormalizeQuery(query: string): string {
      var q := Trim(query);
      if q != "" && maxQueryChars > 0 then Take(q, maxQueryChars) else q
    }

    // embedded is what the embedding service answers for the query text; vectors are already
    // brought to unit length.
    method Add(query: string, model: string, embedding: Embedding, embedded: Embedding, tier: Option<int>,
               strategy: string, user: string, now: int)
      returns (r: AddResult)
      requires InStep(State())
      modifies this
      ensures InStep(State())
      ensures r == Refused <==> Trim(model) == "" || (embedding == [] && (NormalizeQuery(query) == "" || embedded == []))
      ensures r == Refused ==> State() == old(State())
      ensures var emb := if embedding == [] then embedded else embedding;
              var item := NewItem(if tier.Some? then tier.value else 0, Trim(model), NormalizeQuery(query), Trim(strategy), Trim(user), now);
              r != Refused ==> State() == Added(old(State()), item, emb).0
                               && r == match Added(old(State()), item, emb).1 case Some(id) => Stored(id) case None => DimensionMismatch
      ensures r.Stored? ==>
                && r.id !in old(items) && items == old(items)[r.id := items[r.id]]
                && IsRow(items[r.id], tier, Trim(model), NormalizeQuery(query), Trim(strategy), Trim(user), now)
    {
      var q := NormalizeQuery(query);
      var m := Trim(model);
      if m == "" {
        return Refused;
      }
      var emb := embedding;
      if emb == [] {
        if q == "" {
          return Refused;
        }
        emb := embedded;
      }
      if emb == [] {
        return Refused;
      }
      var item := NewItem(if tier.Some? then tier.value else 0, m, q, Trim(strategy), Trim(user), now);
      AddedInStep(State(), item, emb);
      var saved := State();
      var ok := EnsureVectorTable(|emb|);
      if !ok {
        Restore(saved);
        return DimensionMismatch;
      }
      var id := nextId;
      items := items[id := item];
      nextId := nextId + 1;
      vectors := Some(vectors.value[id := Vector(emb, item.tier, item.model, OrEmpty(item.strategy), OrEmpty(item.user), OrEmpty(item.query))]);
      return Stored(id);
    }

    method UpdateItem(id: ItemId, u: Update) returns (r: UpdateResult)
      requires InStep(State())
      modifies this
      ensures InStep(State())
      ensures r == EmptyModel <==> u.model.Value? && Trim(u.model.value) == ""
      ensures r == EmptyModel ==> State() == old(State())
      ensures r.Done? ==> r.changed == (id in old(items) && !(u.model.Undefined? && !u.tier.Value? && u.strategy.Undefined? && u.user.Undefined?))
      ensures r.Done? ==> State() == if r.changed then Updated(old(State()), id, u) else old(State())
      ensures r == Done(true) ==> id in items && ColumnsSet(old(items)[id], items[id], u)
    {
      if u.model.Value? && Trim(u.model.value) == "" {
        return EmptyModel;
      }
      if !u.tier.Value? && u.model.Undefined? && u.strategy.Undefined? && u.user.Undefined? {
        return Done(false);
      }
      UpdatedInStep(State(), id, u);
      if id !in items {
        return Done(false);
      }
      items := items[id := UpdatedItem(items[id], u)];
      if vectors.Some? && id in vectors.value {
        vectors := Some(vectors.value[id := UpdatedVector(vectors.value[id], u)]);
      }
      return Done(true);
    }

    method DeleteRow(id: ItemId)
      modifies this
      ensures State() == Without(old(State()), {id})
    {
      if vectors.Some? {
        vectors := Some(vectors.value - {id});
      }
      items := items - {id};
    }

    method Delete(id: ItemId) returns (removed: bool)
      requires InStep(State())
      modifies this
      ensures InStep(State()) && State() == Without(old(State()), {id}) && removed == (id in old(items))
    {
      WithoutInStep(State(), {id});
      removed := id in items;
      DeleteRow(id);
    }

    // Rows of the items table, by id.
    method SelectIds(keep: Item -> bool) returns (ids: seq<ItemId>)
      requires InStep(State())
      ensures NoDup(ids) && forall id :: id in ids <==> id in items && keep(items[id])
    {
      ids := [];
      for id := 1 to nextId
        invariant NoDup(ids) && forall i :: i in ids <==> i in items && i < id && keep(items[i])
      {
        if id in items && keep(items[id]) {
          ids := ids + [id];
        }
      }
    }

    // The loop of every delete by filter.
    method DeleteRows(ids: seq<ItemId>) returns (n: nat)
      requires InStep(State()) && NoDup(ids)
      modifies this
      ensures InStep(State()) && n == |ids| && State() == Without(old(State()), Elements(ids))
    {
      ghost var t := State();
      n := 0;
      WithoutNone(t);
      for i := 0 to |ids|
        invariant n == i && State() == Without(t, Elements(ids[..i]))
      {
        assert Elements(ids[..i + 1]) == Elements(ids[..i]) + {ids[i]} by { assert ids[..i + 1] == ids[..i] + [ids[i]]; }
        WithoutTwice(t, Elements(ids[..i]), {ids[i]});
        DeleteRow(ids[i]);
        n := n + 1;
      }
      assert ids[..|ids|] == ids;
      WithoutInStep(t, Elements(ids));
    }

    method ForgetByModel(modelId: string) returns (n: nat)
      requires InStep(State())
      modifies this
      ensures InStep(State())
      ensures var gone := set id | id in old(items) && Trim(modelId) != "" && old(items)[id].model == Trim(modelId);
              State() == Without(old(State()), gone) && n == |gone|
    {
      var m := Trim(modelId);
      ghost var gone := set id | id in items && m != "" && items[id].model == m;
      if m == "" {
        WithoutNone(State());
        assert gone == {};
        return 0;
      }
      var ids := SelectIds((item: Item) => item.model == m);
      assert forall id :: id in ids <==> id in gone;
      assert Elements(ids) == gone;
      CountNoDup(ids);
      n := DeleteRows(ids);
    }

    method DeleteByRoutingFilter(before: Option<int>, modelId: string) returns (n: nat)
      requires InStep(State())
      modifies this
      ensures InStep(State())
      ensures var m := Trim(modelId);
              var gone := set id | id in old(items) && (before.Some? || m != "") && (m != "" ==> old(items)[id].model == m)
                                   && (before.Some? ==> old(items)[id].createdAt < before.value);
              State() == Without(old(State()), gone) && n == |gone|
    {
      var m := Trim(modelId);
      ghost var gone := set id | id in items && (before.Some? || m != "") && (m != "" ==> items[id].model == m)
                                 && (before.Some? ==> items[id].createdAt < before.value);
      if before.None? && m == "" {
        WithoutNone(State());
        assert gone == {};
        return 0;
      }
      var ids := SelectIds((item: Item) => (m != "" ==> item.model == m) && (before.Some? ==> item.createdAt < before.value));
      assert forall id :: id in ids <==> id in gone;
      assert Elements(ids) == gone;
      CountNoDup(ids);
      n := DeleteRows(ids);
    }

    method ClearAll()
      requires InStep(State())
      modifies this
      ensures InStep(State()) && State() == Cleared(old(State()))
    {
      if vectors.Some? {
        vectors := None;
      }
      items := map[];
      vectorDim := None;
    }

    // dist is the index's metric.
    method Search(q: Query, dist: Distance) returns (results: seq<SearchRow>)
      requires InStep(State())
      ensures !Searchable(State(), q) ==> results == []
      ensures Searchable(State(), q) ==>
                && |results| == |Found(State(), q, dist)|
                && (forall i :: 0 <= i < |results| ==>
                      Found(State(), q, dist)[i] in items && results[i] == RowOf(State(), q, dist, Found(State(), q, dist)[i]))
      ensures |results| <= (if q.k > 0 then q.k else 0) && NearestFirst(results)
      ensures forall i :: 0 <= i < |results| ==> Answers(State(), q, dist, results[i])
      ensures Searchable(State(), q) && q.model.None? && q.strategy.None? && q.user.None? ==> NoneMissed(State(), q, dist, results)
      ensures Searchable(State(), q) && !Narrowed(q) ==> Found(State(), q, dist) == Exhaustive(State(), q, dist)
    {
      if q.k <= 0 || q.embedding == [] || vectors.None? {
        return [];
      }
      if vectorDim != Some(|q.embedding|) {
        return [];
      }
      if !Narrowed(q) {
        SearchIsExhaustive(State(), q, dist);
      }
      RowsAreItems(State(), q, dist);
      results := Collect(State(), Rows(State(), q, dist), q, dist);
      FoundQualify(State(), q, dist);
      FoundNearest(State(), q, dist);
      if !Narrowed(q) {
        FoundMissNone(State(), q, dist, results);
      }
    }

    // The loop over the rows of the query: those that score enough, until there are k.
    static method Collect(t: Tables, rows: seq<ItemId>, q: Query, dist: Distance) returns (results: seq<SearchRow>)
      requires t.vectors.Some? && q.k > 0 && forall id :: id in rows ==> id in t.items
      ensures |results| == |Scored(t.vectors.value, q, dist, rows)|
      ensures forall i :: 0 <= i < |results| ==>
                var id := Scored(t.vectors.value, q, dist, rows)[i]; id in t.items && results[i] == RowOf(t, q, dist, id)
    {
      ghost var scores := id => Scores(t.vectors.value, q, dist, id);
      ghost var found: seq<ItemId> := [];
      results := [];
      var i := 0;
      while i < |rows| && |results| < q.k
        invariant 0 <= i <= |rows| && |found| == |results| <= q.k && found == Filter(scores, rows[..i])
        invariant forall j :: 0 <= j < |found| ==> found[j] in t.items && results[j] == RowOf(t, q, dist, found[j])
      {
        ScanNext(scores, rows, i);
        assert rows[i] in rows;
        if 1.0 - DistanceOf(t.vectors.value, q, dist, rows[i]) >= q.threshold {
          results := results + [RowOf(t, q, dist, rows[i])];
          found := found + [rows[i]];
        }
        i := i + 1;
      }
      ScanEnd(scores, rows, i, q.k);
      assert found == Scored(t.vectors.value, q, dist, rows);
    }
  }

  lemma ScanNext(scores: ItemId -> bool, rows: seq<ItemId>, i: nat)
    requires i < |rows|
    ensures Filter(scores, rows[..i + 1]) == Filter(scores, rows[..i]) + if scores(rows[i]) then [rows[i]] else []
  {
    assert rows[..i + 1] == rows[..i] + [rows[i]];
    FilterSnoc(scores, rows[..i], rows[i]);
  }

  // The scan stops with the first k of what passes.
  lemma ScanEnd(scores: ItemId -> bool, rows: seq<ItemId>, i: nat, k: int)
    requires i <= |rows| && 0 < k && |Filter(scores, rows[..i])| <= k
    requires i == |rows| || |Filter(scores, rows[..i])| == k
    ensures Take(Filter(scores, rows), k) == Filter(scores, rows[..i])
  {
    FilterConcat(scores, rows[..i], rows[i..]);
    assert rows[..i] + rows[i..] == rows;
    if i == |rows| {
      assert rows[..i] == rows;
    }
  }

  lemma RowsAreItems(t: Tables, q: Query, dist: Distance)
    requires t.vectors.Some?
    ensures forall id :: id in Rows(t, q, dist) ==> id in t.items
  {
    FilterElements(id => Joined(t.items, q, id), Take(OfTier(t, q, dist), Window(q)));
  }

  // The rows of the wanted tier that are at least as near as this one.
  ghost function AsNear(t: Tables, q: Query, dist: Distance, id: ItemId): set<ItemId>
    requires t.vectors.Some? && id in t.vectors.value
  {
    set x | x in t.vectors.value && (q.tier.Some? ==> t.vectors.value[x].tier == if q.tier.value == 1 then 1 else 0)
            && dist(t.vectors.value[x].embedding, q.embedding) <= dist(t.vectors.value[id].embedding, q.embedding)
  }

  // The rows of the tier, each once, in order of distance.
  lemma OfTierIs(t: Tables, q: Query, dist: Distance)
    requires InStep(t) && t.vectors.Some?
    ensures NoDup(OfTier(t, q, dist))
    ensures SortedBy((a, b) => DistanceOf(t.vectors.value, q, dist, a) < DistanceOf(t.vectors.value, q, dist, b), OfTier(t, q, dist))
    ensures forall x :: x in OfTier(t, q, dist) <==> x in t.items && TierPasses(t.vectors.value, q, x)
  {
    var nearer := (a, b) => DistanceOf(t.vectors.value, q, dist, a) < DistanceOf(t.vectors.value, q, dist, b);
    var ofTier := x => TierPasses(t.vectors.value, q, x);
    RankedAll(t, q, dist);
    FilterElements(ofTier, Ranked(t, q, dist));
    FilterSorted(ofTier, nearer, Ranked(t, q, dist));
    FilterNoDup(ofTier, Ranked(t, q, dist));
  }

  // In a sorted sequence all up to p are at most as great as what stands there.
  lemma UpTo<T(!new)>(less: (T, T) -> bool, xs: seq<T>, p: nat, most: set<T>)
    requires SortedBy(less, xs) && NoDup(xs) && p < |xs|
    requires forall x :: x in xs && !less(xs[p], x) ==> x in most
    requires !less(xs[p], xs[p])
    ensures p < |most|
  {
    var front := xs[..p + 1];
    forall x | x in Elements(front)
      ensures x in most
    {
      var i :| 0 <= i < |front| && front[i] == x;
      assert xs[i] == x && x in xs;
    }
    CountNoDup(front);
    SubsetSize(Elements(front), most);
  }

  // With the rows of its tier in order of distance, a row stands among the first |AsNear|.
  lemma StandsAmong(t: Tables, q: Query, dist: Distance, id: ItemId) returns (p: nat)
    requires InStep(t) && t.vectors.Some? && Qualifies(t, q, dist, id)
    ensures p < |OfTier(t, q, dist)| && OfTier(t, q, dist)[p] == id && p < |AsNear(t, q, dist, id)|
  {
    OfTierIs(t, q, dist);
    PassesQualifies(t, q, dist, id);
    p :| 0 <= p < |OfTier(t, q, dist)| && OfTier(t, q, dist)[p] == id;
    UpTo((a, b) => DistanceOf(t.vectors.value, q, dist, a) < DistanceOf(t.vectors.value, q, dist, b), OfTier(t, q, dist), p, AsNear(t, q, dist, id));
  }

  lemma {:induction false} SubsetSize<T>(a: set<T>, b: set<T>)
    requires a <= b
    ensures |a| <= |b|
  {
    if a != {} {
      var x :| x in a;
      SubsetSize(a - {x}, b - {x});
    }
  }

  /** The window: a row that qualifies and is among the nearest 8 k rows of its tier (3 k without
      model, strategy and user filter) is only missing if there are k results, all at least as near. */
  lemma NearRowsFound(t: Tables, q: Query, dist: Distance, id: ItemId)
    requires InStep(t) && t.vectors.Some? && q.k > 0 && Qualifies(t, q, dist, id) && id !in Found(t, q, dist)
    requires |AsNear(t, q, dist, id)| <= q.k * if q.model.Some? || q.strategy.Some? || q.user.Some? then 8 else 3
    ensures |Found(t, q, dist)| == q.k
    ensures forall x :: x in Found(t, q, dist) ==>
              x in t.vectors.value && dist(t.vectors.value[x].embedding, q.embedding) <= dist(t.vectors.value[id].embedding, q.embedding)
  {
    var near := Take(OfTier(t, q, dist), Window(q));
    var good := x => Joined(t.items, q, x) && Scores(t.vectors.value, q, dist, x);
    var nearer := (a, b) => DistanceOf(t.vectors.value, q, dist, a) < DistanceOf(t.vectors.value, q, dist, b);
    var p := StandsAmong(t, q, dist, id);
    OfTierIs(t, q, dist);
    PassesQualifies(t, q, dist, id);
    FiltersMerge(t, q, dist, near);
    PrefixOf(nearer, near, OfTier(t, q, dist));
    assert near[p] == id;
    FilterElements(good, near);
    FilterSorted(good, nearer, near);
    CutBehind(nearer, Filter(good, near), q.k, id);
    FoundQualify(t, q, dist);
    forall x | x in Found(t, q, dist)
      ensures x in t.vectors.value && dist(t.vectors.value[x].embedding, q.embedding) <= dist(t.vectors.value[id].embedding, q.embedding)
    {
      assert !nearer(id, x);
    }
  }

  // What a sorted sequence loses when it is cut is behind all that is kept.
  lemma CutBehind<T(!new)>(less: (T, T) -> bool, xs: seq<T>, k: int, y: T)
    requires SortedBy(less, xs) && y in xs && y !in Take(xs, k) && k > 0
    ensures |Take(xs, k)| == k && forall x :: x in Take(xs, k) ==> !less(y, x)
  {
    TakeHas(xs, k);
    var j :| 0 <= j < |xs| && xs[j] == y;
    forall x | x in Take(xs, k)
      ensures !less(y, x)
    {
      var i :| 0 <= i < k && xs[i] == x;
    }
  }

  lemma TakeHas<T>(xs: seq<T>, k: int)
    requires k > 0
    ensures forall j :: 0 <= j < |xs| && j < k ==> xs[j] in Take(xs, k)
  {
    forall j | 0 <= j < |xs| && j < k
      ensures xs[j] in Take(xs, k)
    {
      assert Take(xs, k)[j] == xs[j];
    }
  }

  lemma PassesQualifies(t: Tables, q: Query, dist: Distance, id: ItemId)
    requires InStep(t) && t.vectors.Some?
    ensures Passes(t, q, dist, id) <==> Qualifies(t, q, dist, id)
  {
    if id in t.items {
      assert Mirrors(t.items[id], t.vectors.value[id]);
    }
  }

  lemma FoundQualify(t: Tables, q: Query, dist: Distance)
    requires InStep(t) && t.vectors.Some? && q.k > 0
    ensures |Found(t, q, dist)| <= q.k && forall i :: 0 <= i < |Found(t, q, dist)| ==> Qualifies(t, q, dist, Found(t, q, dist)[i])
  {
    SearchIsPrefix(t, q, dist);
    FilterElements(id => Passes(t, q, dist, id), Ranked(t, q, dist));
    forall i | 0 <= i < |Found(t, q, dist)|
      ensures Qualifies(t, q, dist, Found(t, q, dist)[i])
    {
      var id := Found(t, q, dist)[i];
      assert id == Exhaustive(t, q, dist)[i] == Filter(x => Passes(t, q, dist, x), Ranked(t, q, dist))[i];
      assert id in Filter(x => Passes(t, q, dist, x), Ranked(t, q, dist));
      PassesQualifies(t, q, dist, id);
    }
  }

  lemma FoundNearest(t: Tables, q: Query, dist: Distance)
    requires InStep(t) && t.vectors.Some? && q.k > 0
    ensures NoDup(Found(t, q, dist))
    ensures forall i, j :: 0 <= i < j < |Found(t, q, dist)| ==>
              DistanceOf(t.vectors.value, q, dist, Found(t, q, dist)[i]) <= DistanceOf(t.vectors.value, q, dist, Found(t, q, dist)[j])
  {
    var nearer := (a, b) => DistanceOf(t.vectors.value, q, dist, a) < DistanceOf(t.vectors.value, q, dist, b);
    var passes := x => Passes(t, q, dist, x);
    RankedAll(t, q, dist);
    FilterNoDup(passes, Ranked(t, q, dist));
    FilterSorted(passes, nearer, Ranked(t, q, dist));
    SearchIsPrefix(t, q, dist);
    PrefixOf(nearer, Found(t, q, dist), Filter(passes, Ranked(t, q, dist)));
    forall i, j | 0 <= i < j < |Found(t, q, dist)|
      ensures DistanceOf(t.vectors.value, q, dist, Found(t, q, dist)[i]) <= DistanceOf(t.vectors.value, q, dist, Found(t, q, dist)[j])
    {
      assert !nearer(Found(t, q, dist)[j], Found(t, q, dist)[i]);
    }
  }

  lemma PrefixOf<T(!new)>(less: (T, T) -> bool, xs: seq<T>, ys: seq<T>)
    requires xs <= ys && SortedBy(less, ys) && NoDup(ys)
    ensures SortedBy(less, xs) && NoDup(xs)
  {
  }

  lemma FoundMissNone(t: Tables, q: Query, dist: Distance, rows: seq<SearchRow>)
    requires InStep(t) && t.vectors.Some? && q.k > 0 && !Narrowed(q) && |rows| == |Found(t, q, dist)|
    requires forall i :: 0 <= i < |rows| ==> Found(t, q, dist)[i] in t.items && rows[i] == RowOf(t, q, dist, Found(t, q, dist)[i])
    ensures NoneMissed(t, q, dist, rows)
  {
    SearchIsExhaustive(t, q, dist);
    forall id | Qualifies(t, q, dist, id) && (forall i :: 0 <= i < |rows| ==> rows[i].id != id)
      ensures |rows| == q.k && forall i :: 0 <= i < |rows| ==> rows[i].score >= 1.0 - dist(t.vectors.value[id].embedding, q.embedding)
    {
      PassesQualifies(t, q, dist, id);
      ExhaustiveIsNearest(t, q, dist, id);
    }
  }

  lemma WithoutNone(t: Tables)
    ensures Without(t, {}) == t && Without(t, Elements([])) == t
  {
    assert t.items - {} == t.items;
    assert Elements<ItemId>([]) == {};
    if t.vectors.Some? {
      assert t.vectors.value - {} == t.vectors.value;
    }
  }

  lemma {:induction false} CountNoDup<T(!new)>(xs: seq<T>)
    requires NoDup(xs)
    ensures |Elements(xs)| == |xs|
  {
    if xs != [] {
      CountNoDup(xs[1..]);
      assert xs[0] !in xs[1..];
      assert Elements(xs) == {xs[0]} + Elements(xs[1..]);
    }
  }
}
