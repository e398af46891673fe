/** Tables in which the filtered search misses a row: the nearest eight belong to another model. */
module MemoryMissed {
  import opened Wrappers
  import opened MemoryTables
  import opened MemorySearch
  import opened Seqs

  const NEAR: string := "near"
  const FAR: string := "far"

  function ModelOf(id: ItemId): string {
    if id == 9 then FAR else NEAR
  }

  function NineRows(): Tables {
    Tables(map id | 1 <= id <= 9 :: Item(0, ModelOf(id), None, None, None, 0), 10,
           Some(map id | 1 <= id <= 9 :: Vector([id as real / 10.0], 0, ModelOf(id), "", "", "")), Some(1))
  }

  function ForFar(): Query {
    Query([0.0], 1, None, Some(FAR), None, None, 0.0)
  }

  function Gap(a: Embedding, b: Embedding): real {
    if a == [] || b == [] then 0.0 else if a[0] >= b[0] then a[0] - b[0] else b[0] - a[0]
  }

  lemma {:induction false} SortedStays<T(!new)>(less: (T, T) -> bool, xs: seq<T>)
    requires SortedBy(less, xs)
    ensures SortBy(less, xs) == xs
  {
    if xs != [] {
      SortedStays(less, xs[1..]);
      assert xs == [xs[0]] + xs[1..];
    }
  }

  lemma Ids()
    ensures IdsBelow(NineRows().vectors.value, 10) == [1, 2, 3, 4, 5, 6, 7, 8, 9]
  {
    var v := NineRows().vectors.value;
    assert IdsBelow(v, 1) == [];
    assert IdsBelow(v, 2) == [1];
    assert IdsBelow(v, 3) == [1, 2];
    assert IdsBelow(v, 4) == [1, 2, 3];
    assert IdsBelow(v, 5) == [1, 2, 3, 4];
    assert IdsBelow(v, 6) == [1, 2, 3, 4, 5];
    assert IdsBelow(v, 7) == [1, 2, 3, 4, 5, 6];
    assert IdsBelow(v, 8) == [1, 2, 3, 4, 5, 6, 7];
    assert IdsBelow(v, 9) == [1, 2, 3, 4, 5, 6, 7, 8];
  }

  lemma GapOf(id: ItemId)
    requires 1 <= id <= 9
    ensures DistanceOf(NineRows().vectors.value, ForFar(), Gap, id) == id as real / 10.0
  {
  }

  lemma RankedById()
    ensures Ranked(NineRows(), ForFar(), Gap) == [1, 2, 3, 4, 5, 6, 7, 8, 9]
  {
    var ids := [1, 2, 3, 4, 5, 6, 7, 8, 9];
    var nearer := (a, b) => DistanceOf(NineRows().vectors.value, ForFar(), Gap, a) < DistanceOf(NineRows().vectors.value, ForFar(), Gap, b);
    Ids();
    forall i, j | 0 <= i < j < |ids|
      ensures !nearer(ids[j], ids[i])
    {
      GapOf(ids[i]);
      GapOf(ids[j]);
    }
    SortedStays(nearer, ids);
  }

  lemma AllOfTier()
    ensures OfTier(NineRows(), ForFar(), Gap) == [1, 2, 3, 4, 5, 6, 7, 8, 9]
  {
    RankedById();
    FilterAll(id => TierPasses(NineRows().vectors.value, ForFar(), id), Ranked(NineRows(), ForFar(), Gap));
  }

  lemma NoneInWindow()
    ensures InWindow(NineRows(), ForFar(), Gap) == []
  {
    var near := Take(OfTier(NineRows(), ForFar(), Gap), Window(ForFar()));
    AllOfTier();
    assert near == [1, 2, 3, 4, 5, 6, 7, 8];
    FilterNone(id => Joined(NineRows().items, ForFar(), id) && Scores(NineRows().vectors.value, ForFar(), Gap, id), near);
  }

  lemma FarPasses()
    ensures Joined(NineRows().items, ForFar(), 9) && Scores(NineRows().vectors.value, ForFar(), Gap, 9)
  {
    GapOf(9);
  }

  lemma NineInStep()
    ensures InStep(NineRows())
  {
  }

  /** Nine rows, k = 1: the one row of the wanted model lies behind the window of eight, so the
      search does not return what the exhaustive one does. */
  lemma SearchMisses()
    ensures InStep(NineRows()) && Found(NineRows(), ForFar(), Gap) != Exhaustive(NineRows(), ForFar(), Gap)
  {
    var all := OfTier(NineRows(), ForFar(), Gap);
    NineInStep();
    AllOfTier();
    NoneInWindow();
    FarPasses();
    assert Window(ForFar()) == 8 && all[8] == 9;
    SearchAgreesExactly(NineRows(), ForFar(), Gap);
  }
}
