/** The tables behind the routing memory: items, their vectors, and the recorded width of the
    vectors; and what each operation does to them. */
module MemoryTables {
  import opened Wrappers
  import opened Texts
  import opened Behaviours

  type ItemId = int
  type Embedding = seq<real>

  // A row of memory_items; an empty text is stored as NULL in the optional columns.
  datatype Item = Item(tier: int, model: string, query: Option<string>, strategy: Option<string>, user: Option<string>,
                       createdAt: int)

  // A row of the vector table, keyed by the item's id.
  datatype Vector = Vector(embedding: Embedding, tier: int, model: string, strategy: string, user: string, query: string)

  // vectors: None while the vector table does not exist; nextId: the counter behind the ids,
  // which only a rollback takes back.
  datatype Tables = Tables(items: map<ItemId, Item>, nextId: ItemId, vectors: Option<map<ItemId, Vector>>, vectorDim: Option<nat>)

  // A field of an update: absent, null, or a value.
  datatype Field<T> = Undefined | Null | Value(value: T)

  datatype Update = Update(model: Field<string>, tier: Field<int>, strategy: Field<string>, user: Field<string>)

  const EMPTY: Tables := Tables(map[], 1, None, None)

  predicate Blank(c: char) {
    c in {' ', '\t', '\n', '\r', '\U{000B}', '\U{000C}', '\U{00A0}', '\U{FEFF}', '\U{2028}', '\U{2029}'}
  }

  function Trim(s: string): string {
    Strip(Blank, s)
  }

  // An empty text becomes NULL in the items table.
  function NullIfEmpty(s: string): Option<string> {
    if s == "" then None else Some(s)
  }

  // NULL becomes an empty text in the vector table.
  function OrEmpty(o: Option<string>): string {
    if o.Some? then o.value else ""
  }

  function Bit(tier: int): int {
    if tier == 1 then 1 else 0
  }

  function FieldText(f: Field<string>): string {
    if f.Value? then Trim(f.value) else ""
  }

  // -- invariant --------------------------------------------------------------------------

  predicate Mirrors(item: Item, v: Vector) {
    && v.tier == item.tier && v.model == item.model
    && v.strategy == OrEmpty(item.strategy) && v.user == OrEmpty(item.user) && v.query == OrEmpty(item.query)
  }

  ghost predicate InStep(t: Tables) {
    && t.nextId > 0 && (t.vectors.Some? <==> t.vectorDim.Some?)
    && t.items.Keys == (if t.vectors.Some? then t.vectors.value.Keys else {})
    && (forall id :: id in t.items ==> 0 < id < t.nextId)
    && (forall id :: id in t.items && t.vectors.Some? ==>
          Mirrors(t.items[id], t.vectors.value[id]) && |t.vectors.value[id].embedding| == t.vectorDim.value)
  }

  // -- operations -------------------------------------------------------------------------

  // resetVectorStore
  function Reset(t: Tables): Tables {
    t.(items := map[], vectors := None, vectorDim := None)
  }

  // ensureVectorTable: None is the dimension mismatch, which raises.
  function WithVectorTable(t: Tables, dim: nat): Option<Tables> {
    var s := if t.vectors.Some? && t.vectorDim.None? then Reset(t) else t;
    if s.vectorDim.Some? then (if s.vectorDim.value != dim then None else Some(s))
    else Some(s.(vectors := if s.vectors.None? then Some(map[]) else s.vectors, vectorDim := Some(dim)))
  }

  function NewItem(tier: int, model: string, query: string, strategy: string, user: string, now: int): Item {
    Item(Bit(tier), model, NullIfEmpty(query), NullIfEmpty(strategy), NullIfEmpty(user), now)
  }

  // The two inserts of an add, with the id the first one returned.
  function Inserted(t: Tables, item: Item, emb: Embedding): Tables
    requires t.vectors.Some?
  {
    var v := Vector(emb, item.tier, item.model, OrEmpty(item.strategy), OrEmpty(item.user), OrEmpty(item.query));
    t.(items := t.items[t.nextId := item], nextId := t.nextId + 1, vectors := Some(t.vectors.value[t.nextId := v]))
  }

  // The whole transaction of an add: a raise leaves the tables as they were.
  function Added(t: Tables, item: Item, emb: Embedding): (Tables, Option<ItemId>) {
    match WithVectorTable(t, |emb|)
    case None => (t, None)
    case Some(s) => if s.vectors.Some? then (Inserted(s, item, emb), Some(s.nextId)) else (t, None)
  }

  function UpdatedItem(item: Item, u: Update): Item {
    Item(if u.tier.Value? then Bit(u.tier.value) else item.tier,
         if u.model.Undefined? then item.model else FieldText(u.model),
         item.query,
         if u.strategy.Undefined? then item.strategy else NullIfEmpty(FieldText(u.strategy)),
         if u.user.Undefined? then item.user else NullIfEmpty(FieldText(u.user)),
         item.createdAt)
  }

  function UpdatedVector(v: Vector, u: Update): Vector {
    Vector(v.embedding,
           if u.tier.Value? then Bit(u.tier.value) else v.tier,
           if u.model.Undefined? then v.model else FieldText(u.model),
           if u.strategy.Undefined? then v.strategy else FieldText(u.strategy),
           if u.user.Undefined? then v.user else FieldText(u.user),
           v.query)
  }

  function Updated(t: Tables, id: ItemId, u: Update): Tables {
    if id !in t.items then t
    else
      var s := t.(items := t.items[id := UpdatedItem(t.items[id], u)]);
      if s.vectors.Some? && id in s.vectors.value
      then s.(vectors := Some(s.vectors.value[id := UpdatedVector(s.vectors.value[id], u)])) else s
  }

  // Every delete form: the vector rows go, then the item rows.
  function Without(t: Tables, ids: set<ItemId>): Tables {
    t.(vectors := if t.vectors.Some? then Some(t.vectors.value - ids) else None, items := t.items - ids)
  }

  function Cleared(t: Tables): Tables {
    t.(vectors := None, items := map[], vectorDim := None)
  }

  // -- laws -------------------------------------------------------------------------------

  lemma EmptyInStep()
    ensures InStep(EMPTY)
  {
  }

  // An add gives the item a new id and leaves every other row alone; a mismatch leaves all.
  lemma AddedInStep(t: Tables, item: Item, emb: Embedding)
    requires InStep(t)
    ensures var (r, id) := Added(t, item, emb);
            && InStep(r)
            && (id.None? <==> t.vectorDim.Some? && t.vectorDim.value != |emb|)
            && (id.None? ==> r == t)
            && (id.Some? ==>
                  && id.value !in t.items && r.items == t.items[id.value := item] && id.value < r.nextId
                  && r.vectors.Some? && r.vectors.value[id.value].embedding == emb
                  && (forall i :: i in t.items ==> t.vectors.Some? && r.vectors.value[i] == t.vectors.value[i]))
  {
  }

  lemma UpdatedInStep(t: Tables, id: ItemId, u: Update)
    requires InStep(t)
    ensures InStep(Updated(t, id, u))
    ensures Updated(t, id, u).items.Keys == t.items.Keys
    ensures forall i :: i in t.items && i != id ==> Updated(t, id, u).items[i] == t.items[i]
    ensures forall i :: i in t.items && i != id && t.vectors.Some? ==> Updated(t, id, u).vectors.value[i] == t.vectors.value[i]
    ensures id in t.items && t.vectors.Some? ==> Updated(t, id, u).vectors.value[id].embedding == t.vectors.value[id].embedding
  {
  }

  // The model of an item becomes empty exactly if the update gives it as null (an empty text is
  // refused before the tables are touched) or it was empty and stays.
  lemma UpdatedModelEmpty(t: Tables, id: ItemId, u: Update)
    requires id in t.items && (u.model.Value? ==> FieldText(u.model) != "")
    ensures Updated(t, id, u).items[id].model == "" <==> u.model.Null? || (u.model.Undefined? && t.items[id].model == "")
  {
  }

  lemma WithoutInStep(t: Tables, ids: set<ItemId>)
    requires InStep(t)
    ensures InStep(Without(t, ids)) && Without(t, ids).nextId == t.nextId
    ensures forall i :: i in Without(t, ids).items <==> i in t.items && i !in ids
    ensures forall i :: i in t.items && i !in ids ==>
              Without(t, ids).items[i] == t.items[i] && (t.vectors.Some? ==> Without(t, ids).vectors.value[i] == t.vectors.value[i])
  {
  }

  lemma ClearedInStep(t: Tables)
    requires InStep(t)
    ensures InStep(Cleared(t)) && Cleared(t).vectorDim == None && Cleared(t).nextId == t.nextId
  {
  }

  // Adding an item and deleting it again restores every row; only the id is used up, and the
  // vector width stays recorded.
  lemma AddThenDelete(t: Tables, item: Item, emb: Embedding)
    requires InStep(t) && Added(t, item, emb).1.Some?
    ensures var (r, id) := Added(t, item, emb);
            var back := Without(r, {id.value});
            && back.items == t.items && back.nextId == t.nextId + 1 && back.vectorDim == Some(|emb|)
            && back.vectors == Some(if t.vectors.Some? then t.vectors.value else map[])
  {
    var (r, id) := Added(t, item, emb);
    assert Without(r, {id.value}).items == t.items;
    if t.vectors.Some? {
      assert r.vectors.value - {id.value} == t.vectors.value;
    } else {
      assert r.vectors.value - {id.value} == map[];
    }
  }

  // Deleting in two steps is deleting both.
  lemma WithoutTwice(t: Tables, a: set<ItemId>, b: set<ItemId>)
    ensures Without(Without(t, a), b) == Without(t, a + b)
  {
    assert t.items - a - b == t.items - (a + b);
    if t.vectors.Some? {
      assert t.vectors.value - a - b == t.vectors.value - (a + b);
    }
  }

  // -- over whole runs --------------------------------------------------------------------

  datatype Operation = Adding(item: Item, embedding: Embedding) | Updating(id: ItemId, u: Update) | Deleting(ids: set<ItemId>) | Clearing

  function Performed(t: Tables, op: Operation): Tables {
    match op
    case Adding(item, embedding) => Added(t, item, embedding).0
    case Updating(id, u) => Updated(t, id, u)
    case Deleting(ids) => Without(t, ids)
    case Clearing => Cleared(t)
  }

  lemma PerformedInStep(t: Tables, op: Operation)
    requires InStep(t)
    ensures InStep(Performed(t, op))
  {
    match op
    case Adding(item, embedding) => AddedInStep(t, item, embedding);
    case Updating(id, u) => UpdatedInStep(t, id, u);
    case Deleting(ids) => WithoutInStep(t, ids);
    case Clearing => ClearedInStep(t);
  }

  /** From the empty store, after any adds, updates, deletes and clears in any order, items and
      vectors are in step: same ids, mirrored columns, every vector of the recorded width. */
  lemma AlwaysInStep(ops: seq<Operation>)
    ensures InStep(After(Performed, EMPTY, ops))
  {
    EmptyInStep();
    forall t, op | InStep(t)
      ensures InStep(Performed(t, op))
    {
      PerformedInStep(t, op);
    }
    AlwaysAfter(InStep, Performed, EMPTY, ops);
  }
}
