/** Greedy grouping of a sequence in order: a group is closed when the next element would make it
    too big. A single element always makes a group. */
module Greedy {
  import opened Seqs

  // The groups from here on, cur being the group that is open.
  function Pack<T>(big: seq<T> -> bool, cur: seq<T>, rest: seq<T>): (groups: seq<seq<T>>)
    decreases |rest|
  {
    if rest == [] then [cur]
    else if big(cur + [rest[0]]) then [cur] + Pack(big, [rest[0]], rest[1..])
    else Pack(big, cur + [rest[0]], rest[1..])
  }

  function Packed<T>(big: seq<T> -> bool, xs: seq<T>): seq<seq<T>> {
    if xs == [] then [] else Pack(big, [xs[0]], xs[1..])
  }

  function Flatten<T>(groups: seq<seq<T>>): seq<T> {
    if groups == [] then [] else groups[0] + Flatten(groups[1..])
  }

  predicate Fits<T>(big: seq<T> -> bool, g: seq<T>) {
    g != [] && (|g| > 1 ==> !big(g))
  }

  ghost predicate AllFit<T>(big: seq<T> -> bool, groups: seq<seq<T>>) {
    forall i :: 0 <= i < |groups| ==> Fits(big, groups[i])
  }

  // A grouping of xs in order in which every group of more than one element is not too big.
  ghost predicate Grouping<T>(big: seq<T> -> bool, xs: seq<T>, groups: seq<seq<T>>) {
    Flatten(groups) == xs && AllFit(big, groups)
  }

  ghost predicate All<T>(ok: T -> bool, xs: seq<T>) {
    forall i :: 0 <= i < |xs| ==> ok(xs[i])
  }

  // Too big stays too big when elements are added at either end.
  ghost predicate Monotone<T(!new)>(big: seq<T> -> bool, ok: T -> bool) {
    forall g, x :: All(ok, g) && ok(x) && big(g) ==> big(g + [x]) && big([x] + g)
  }

  // -- greedy packing is a grouping -------------------------------------------------------

  lemma FlattenFirst<T>(g: seq<T>, groups: seq<seq<T>>)
    ensures Flatten([g] + groups) == g + Flatten(groups)
  {
    assert ([g] + groups)[1..] == groups;
  }

  lemma AllFitFirst<T>(big: seq<T> -> bool, g: seq<T>, groups: seq<seq<T>>)
    requires Fits(big, g) && AllFit(big, groups)
    ensures AllFit(big, [g] + groups)
  {
  }

  lemma {:induction false} PackIsGrouping<T>(big: seq<T> -> bool, cur: seq<T>, rest: seq<T>)
    requires Fits(big, cur)
    ensures Grouping(big, cur + rest, Pack(big, cur, rest))
    decreases |rest|
  {
    if rest == [] {
      FlattenFirst(cur, []);
      assert cur + rest == cur && [cur] + [] == [cur];
    } else {
      assert rest == [rest[0]] + rest[1..];
      Associates(cur, [rest[0]], rest[1..]);
      if big(cur + [rest[0]]) {
        PackIsGrouping(big, [rest[0]], rest[1..]);
        FlattenFirst(cur, Pack(big, [rest[0]], rest[1..]));
        AllFitFirst(big, cur, Pack(big, [rest[0]], rest[1..]));
      } else {
        PackIsGrouping(big, cur + [rest[0]], rest[1..]);
      }
    }
  }

  /** Every element lands in exactly one group, in order, and every group of more than one element
      is not too big. */
  lemma PackedIsGrouping<T>(big: seq<T> -> bool, xs: seq<T>)
    ensures Grouping(big, xs, Packed(big, xs))
  {
    if xs != [] {
      PackIsGrouping(big, [xs[0]], xs[1..]);
      assert xs == [xs[0]] + xs[1..];
    }
  }

  // -- no grouping is shorter -------------------------------------------------------------

  // A part of a group that is not too big is not too big.
  lemma {:induction false} TailFits<T(!new)>(big: seq<T> -> bool, ok: T -> bool, g: seq<T>, n: nat)
    requires Monotone(big, ok) && All(ok, g) && Fits(big, g) && n < |g|
    ensures Fits(big, g[n..])
    decreases n
  {
    if n > 0 {
      TailFits(big, ok, g, n - 1);
      assert g[n - 1..] == [g[n - 1]] + g[n..];
      assert All(ok, g[n..]) && ok(g[n - 1]);
    } else {
      assert g[0..] == g;
    }
  }

  lemma {:induction false} HeadFits<T(!new)>(big: seq<T> -> bool, ok: T -> bool, g: seq<T>, n: nat)
    requires Monotone(big, ok) && All(ok, g) && Fits(big, g) && 0 < n <= |g|
    ensures Fits(big, g[..n])
    decreases |g| - n
  {
    if n < |g| {
      HeadFits(big, ok, g, n + 1);
      assert g[..n + 1] == g[..n] + [g[n]];
      assert All(ok, g[..n]) && ok(g[n]);
    } else {
      assert g[..n] == g;
    }
  }

  // Dropping the first element of the first group.
  function DropOne<T>(groups: seq<seq<T>>): seq<seq<T>>
    requires groups != [] && groups[0] != []
  {
    if |groups[0]| == 1 then groups[1..] else [groups[0][1..]] + groups[1..]
  }

  lemma DropOneKeeps<T(!new)>(big: seq<T> -> bool, ok: T -> bool, xs: seq<T>, groups: seq<seq<T>>)
    requires Monotone(big, ok) && All(ok, xs) && Grouping(big, xs, groups) && xs != []
    ensures groups != [] && groups[0] != []
    ensures Grouping(big, xs[1..], DropOne(groups)) && |DropOne(groups)| <= |groups|
  {
    var g, rest := groups[0], groups[1..];
    assert Fits(big, g);
    assert xs == g + Flatten(rest);
    assert AllFit(big, rest);
    if |g| == 1 {
      assert xs[1..] == Flatten(rest);
    } else {
      assert All(ok, g) by { assert forall i :: 0 <= i < |g| ==> g[i] == xs[i]; }
      TailFits(big, ok, g, 1);
      FlattenFirst(g[1..], rest);
      AllFitFirst(big, g[1..], rest);
      assert xs[1..] == g[1..] + Flatten(rest);
    }
  }

  // Dropping any number of elements from the front leaves a grouping that is no longer.
  lemma {:induction false} DropKeeps<T(!new)>(big: seq<T> -> bool, ok: T -> bool, xs: seq<T>, groups: seq<seq<T>>, n: nat)
    returns (fewer: seq<seq<T>>)
    requires Monotone(big, ok) && All(ok, xs) && Grouping(big, xs, groups) && n <= |xs|
    ensures Grouping(big, xs[n..], fewer) && |fewer| <= |groups|
    decreases n
  {
    if n == 0 {
      fewer := groups;
      assert xs[0..] == xs;
    } else {
      DropOneKeeps(big, ok, xs, groups);
      fewer := DropKeeps(big, ok, xs[1..], DropOne(groups), n - 1);
      assert xs[1..][n - 1..] == xs[n..];
    }
  }

  // Whatever a grouping of cur + rest looks like, if its first group takes in all of cur, greedy
  // packing from cur on is no longer.
  lemma {:induction false} PackIsShortest<T(!new)>(big: seq<T> -> bool, ok: T -> bool, cur: seq<T>, rest: seq<T>, groups: seq<seq<T>>)
    requires Monotone(big, ok) && All(ok, cur + rest) && Fits(big, cur) && Grouping(big, cur + rest, groups)
    ensures |Pack(big, cur, rest)| <= |groups|
    decreases |rest|
  {
    if rest == [] {
      assert groups != [];
    } else {
      assert (cur + [rest[0]]) + rest[1..] == cur + rest;
      if big(cur + [rest[0]]) {
        var fewer := CloseFirst(big, ok, cur, rest, groups);
        assert [rest[0]] + rest[1..] == rest;
        assert All(ok, rest) by { assert forall i :: 0 <= i < |rest| ==> rest[i] == (cur + rest)[|cur| + i]; }
        PackIsShortest(big, ok, [rest[0]], rest[1..], fewer);
      } else {
        PackIsShortest(big, ok, cur + [rest[0]], rest[1..], groups);
      }
    }
  }

  // When the open group cannot grow, no first group reaches beyond it: the rest has a grouping
  // shorter by one.
  lemma CloseFirst<T(!new)>(big: seq<T> -> bool, ok: T -> bool, cur: seq<T>, rest: seq<T>, groups: seq<seq<T>>)
    returns (fewer: seq<seq<T>>)
    requires Monotone(big, ok) && All(ok, cur + rest) && Fits(big, cur) && Grouping(big, cur + rest, groups)
    requires rest != [] && big(cur + [rest[0]])
    ensures Grouping(big, rest, fewer) && |fewer| + 1 <= |groups|
  {
    var g, others := groups[0], groups[1..];
    var xs := cur + rest;
    assert Fits(big, g) && AllFit(big, others) && xs == g + Flatten(others);
    if |g| > |cur| {
      assert All(ok, g) by { assert forall i :: 0 <= i < |g| ==> g[i] == xs[i]; }
      assert g[..|cur| + 1] == xs[..|cur| + 1] == cur + [rest[0]];
      HeadFits(big, ok, g, |cur| + 1);
      assert false;
    }
    var tail := Flatten(others);
    assert tail == xs[|g|..];
    assert All(ok, tail) by { assert forall i :: 0 <= i < |tail| ==> tail[i] == xs[|g| + i]; }
    fewer := DropKeeps(big, ok, tail, others, |cur| - |g|);
    assert tail[|cur| - |g|..] == rest;
  }

  /** Greedy packing is optimal: no grouping in order by the same rule has fewer groups. */
  lemma GreedyIsOptimal<T(!new)>(big: seq<T> -> bool, ok: T -> bool, xs: seq<T>, groups: seq<seq<T>>)
    requires Monotone(big, ok) && All(ok, xs) && Grouping(big, xs, groups)
    ensures |Packed(big, xs)| <= |groups|
  {
    if xs != [] {
      assert xs == [xs[0]] + xs[1..];
      PackIsShortest(big, ok, [xs[0]], xs[1..], groups);
    }
  }
}
