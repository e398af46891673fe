/** Filtering and stable sorting of sequences, as the programs' sort and list comprehensions do. */
module Seqs {
  ghost predicate NoDup<T(!new)>(xs: seq<T>) {
    forall i, j :: 0 <= i < j < |xs| ==> xs[i] != xs[j]
  }

  function Elements<T>(xs: seq<T>): set<T> {
    set x | x in xs
  }

  function Filter<T>(keep: T -> bool, xs: seq<T>): (r: seq<T>) {
    if xs == [] then []
    else (if keep(xs[0]) then [xs[0]] else []) + Filter(keep, xs[1..])
  }

  // Puts x before the first element that is not less than it: equal elements keep their order.
  function Insert<T>(less: (T, T) -> bool, x: T, xs: seq<T>): (r: seq<T>) {
    if xs == [] || !less(xs[0], x) then [x] + xs
    else [xs[0]] + Insert(less, x, xs[1..])
  }

  function SortBy<T>(less: (T, T) -> bool, xs: seq<T>): (r: seq<T>) {
    if xs == [] then [] else Insert(less, xs[0], SortBy(less, xs[1..]))
  }

  ghost predicate SortedBy<T(!new)>(less: (T, T) -> bool, xs: seq<T>) {
    forall i, j :: 0 <= i < j < |xs| ==> !less(xs[j], xs[i])
  }

  // A strict weak order: what a sort key induces.
  ghost predicate WeakOrder<T(!new)>(less: (T, T) -> bool) {
    && (forall x, y :: less(x, y) ==> !less(y, x))
    && (forall x, y, z :: !less(x, y) && !less(y, z) ==> !less(x, z))
  }

  lemma {:induction false} FilterElements<T>(keep: T -> bool, xs: seq<T>)
    ensures forall x :: x in Filter(keep, xs) <==> x in xs && keep(x)
  {
    if xs != [] {
      FilterElements(keep, xs[1..]);
      assert xs == [xs[0]] + xs[1..];
    }
  }

  lemma {:induction false} FilterSnoc<T>(keep: T -> bool, xs: seq<T>, x: T)
    ensures Filter(keep, xs + [x]) == Filter(keep, xs) + if keep(x) then [x] else []
  {
    if xs == [] {
      assert xs + [x] == [x];
    } else {
      FilterSnoc(keep, xs[1..], x);
      assert (xs + [x])[1..] == xs[1..] + [x];
    }
  }

  lemma {:induction false} FilterNoDup<T(!new)>(keep: T -> bool, xs: seq<T>)
    requires NoDup(xs)
    ensures NoDup(Filter(keep, xs))
  {
    if xs != [] {
      FilterNoDup(keep, xs[1..]);
      FilterElements(keep, xs[1..]);
      assert forall i :: 0 <= i < |xs[1..]| ==> xs[1..][i] == xs[i + 1];
      assert xs[0] !in xs[1..];
    }
  }

  lemma {:induction false} InsertElements<T>(less: (T, T) -> bool, x: T, xs: seq<T>)
    ensures multiset(Insert(less, x, xs)) == multiset{x} + multiset(xs)
    ensures forall y :: y in Insert(less, x, xs) <==> y == x || y in xs
  {
    if xs != [] && less(xs[0], x) {
      InsertElements(less, x, xs[1..]);
      assert xs == [xs[0]] + xs[1..];
    }
  }

  lemma {:induction false} SortElements<T>(less: (T, T) -> bool, xs: seq<T>)
    ensures multiset(SortBy(less, xs)) == multiset(xs)
    ensures forall y :: y in SortBy(less, xs) <==> y in xs
  {
    if xs != [] {
      SortElements(less, xs[1..]);
      InsertElements(less, xs[0], SortBy(less, xs[1..]));
      assert xs == [xs[0]] + xs[1..];
    }
  }

  lemma {:induction false} InsertNoDup<T(!new)>(less: (T, T) -> bool, x: T, xs: seq<T>)
    requires NoDup(xs) && x !in xs
    ensures NoDup(Insert(less, x, xs))
  {
    if xs != [] && less(xs[0], x) {
      InsertNoDup(less, x, xs[1..]);
      InsertElements(less, x, xs[1..]);
      assert xs[0] !in xs[1..];
    }
  }

  lemma {:induction false} SortNoDup<T(!new)>(less: (T, T) -> bool, xs: seq<T>)
    requires NoDup(xs)
    ensures NoDup(SortBy(less, xs))
  {
    if xs != [] {
      SortNoDup(less, xs[1..]);
      SortElements(less, xs[1..]);
      assert xs[0] !in xs[1..];
      InsertNoDup(less, xs[0], SortBy(less, xs[1..]));
    }
  }

  lemma {:induction false} InsertSorted<T(!new)>(less: (T, T) -> bool, x: T, xs: seq<T>)
    requires WeakOrder(less) && SortedBy(less, xs)
    ensures SortedBy(less, Insert(less, x, xs))
  {
    if xs != [] && less(xs[0], x) {
      InsertSorted(less, x, xs[1..]);
      InsertElements(less, x, xs[1..]);
      var rest := Insert(less, x, xs[1..]);
      forall j | 0 <= j < |rest|
        ensures !less(rest[j], xs[0])
      {
        assert rest[j] in rest;
        if rest[j] != x {
          var k :| 0 <= k < |xs[1..]| && xs[1..][k] == rest[j];
          assert xs[k + 1] == rest[j];
        }
      }
    } else if xs != [] {
      forall j | 0 <= j < |xs|
        ensures !less(xs[j], x)
      {
        assert j == 0 || !less(xs[j], xs[0]);
      }
    }
  }

  lemma {:induction false} SortSorts<T(!new)>(less: (T, T) -> bool, xs: seq<T>)
    requires WeakOrder(less)
    ensures SortedBy(less, SortBy(less, xs))
  {
    if xs != [] {
      SortSorts(less, xs[1..]);
      InsertSorted(less, xs[0], SortBy(less, xs[1..]));
    }
  }

  // -- filters, prefixes and order --------------------------------------------------------

  function Take<T>(xs: seq<T>, n: int): seq<T> {
    if n <= 0 then [] else if n >= |xs| then xs else xs[..n]
  }

  lemma {:induction false} FilterTwice<T>(p: T -> bool, q: T -> bool, both: T -> bool, xs: seq<T>)
    requires forall x :: x in xs ==> (both(x) <==> p(x) && q(x))
    ensures Filter(p, Filter(q, xs)) == Filter(both, xs)
  {
    if xs != [] {
      assert xs == [xs[0]] + xs[1..];
      FilterTwice(p, q, both, xs[1..]);
      if q(xs[0]) {
        assert Filter(q, xs)[1..] == Filter(q, xs[1..]);
      } else {
        assert Filter(q, xs) == Filter(q, xs[1..]);
      }
    }
  }

  lemma {:induction false} FilterAll<T>(keep: T -> bool, xs: seq<T>)
    requires forall x :: x in xs ==> keep(x)
    ensures Filter(keep, xs) == xs
  {
    if xs != [] {
      assert xs == [xs[0]] + xs[1..];
      FilterAll(keep, xs[1..]);
    }
  }

  lemma {:induction false} FilterNone<T>(keep: T -> bool, xs: seq<T>)
    requires forall x :: x in xs ==> !keep(x)
    ensures Filter(keep, xs) == []
  {
    if xs != [] {
      assert xs == [xs[0]] + xs[1..];
      FilterNone(keep, xs[1..]);
    }
  }

  lemma {:induction false} FilterConcat<T>(keep: T -> bool, xs: seq<T>, ys: seq<T>)
    ensures Filter(keep, xs + ys) == Filter(keep, xs) + Filter(keep, ys)
  {
    if xs == [] {
      assert xs + ys == ys;
    } else {
      assert (xs + ys)[1..] == xs[1..] + ys && (xs + ys)[0] == xs[0];
      FilterConcat(keep, xs[1..], ys);
      if keep(xs[0]) {
        Associates([xs[0]], Filter(keep, xs[1..]), Filter(keep, ys));
      }
    }
  }

  lemma {:induction false} FilterSorted<T(!new)>(keep: T -> bool, less: (T, T) -> bool, xs: seq<T>)
    requires SortedBy(less, xs)
    ensures SortedBy(less, Filter(keep, xs))
  {
    if xs != [] {
      FilterSorted(keep, less, xs[1..]);
      FilterElements(keep, xs[1..]);
      forall y | y in Filter(keep, xs[1..])
        ensures !less(y, xs[0])
      {
        var k :| 0 <= k < |xs[1..]| && xs[1..][k] == y;
        assert xs[k + 1] == y;
      }
    }
  }

  // In a sequence that is sorted so that what passes comes first, what passes is a prefix.
  lemma {:induction false} FilterIsPrefix<T(!new)>(keep: T -> bool, less: (T, T) -> bool, xs: seq<T>)
    requires SortedBy(less, xs) && forall x, y :: keep(y) && !keep(x) ==> less(y, x)
    ensures Filter(keep, xs) <= xs
    ensures forall i :: 0 <= i < |xs| ==> (keep(xs[i]) <==> i < |Filter(keep, xs)|)
  {
    if xs != [] {
      if keep(xs[0]) {
        FilterIsPrefix(keep, less, xs[1..]);
        assert forall i :: 0 < i < |xs| ==> xs[1..][i - 1] == xs[i];
      } else {
        forall i | 0 < i < |xs|
          ensures !keep(xs[i])
        {
          assert !less(xs[i], xs[0]);
        }
        forall x | x in xs
          ensures !keep(x)
        {
        }
        FilterNone(keep, xs);
      }
    }
  }

  lemma Associates<T>(a: seq<T>, b: seq<T>, c: seq<T>)
    ensures (a + b) + c == a + (b + c)
  {
  }
}
