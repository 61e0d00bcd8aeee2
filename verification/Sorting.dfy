// The keys of a map in order, as sort.Strings and sort.Slice leave them.

module Sorting {
  import opened Listing

  ghost predicate TotalOrder<T(!new)>(less: (T, T) -> bool) {
    && (forall a :: !less(a, a))
    && (forall a, b, c :: less(a, b) && less(b, c) ==> less(a, c))
    && (forall a, b :: a != b ==> less(a, b) || less(b, a))
  }

  predicate Sorted<T>(xs: seq<T>, less: (T, T) -> bool) {
    forall i, j :: 0 <= i < j < |xs| ==> less(xs[i], xs[j])
  }

  /** The set's elements in the order, each once. */
  predicate SortedListing<T(==)>(xs: seq<T>, s: set<T>, less: (T, T) -> bool) {
    Lists(xs, s) && Sorted(xs, less)
  }

  lemma InsertKeepsListing<T(!new)>(xs: seq<T>, s: set<T>, x: T, n: nat, less: (T, T) -> bool)
    requires TotalOrder(less) && SortedListing(xs, s, less) && x !in s && n <= |xs|
    requires forall i :: 0 <= i < n ==> less(xs[i], x)
    requires n < |xs| ==> less(x, xs[n])
    ensures SortedListing(xs[..n] + [x] + xs[n..], s + {x}, less)
  {
    var ys := xs[..n] + [x] + xs[n..];
    forall i, j | 0 <= i < j < |ys| ensures less(ys[i], ys[j]) {
      if j == n {
        assert less(xs[i], x);
      } else if i == n && j > n + 1 {
        assert less(xs[n], xs[j - 1]);
      } else if i < n < j {
        assert less(xs[i], xs[j - 1]);
      }
    }
    assert xs == xs[..n] + xs[n..];
    assert forall y :: y in ys <==> y in xs || y == x;
    SortedIsDistinct(ys, less);
  }

  lemma SortedIsDistinct<T(!new)>(xs: seq<T>, less: (T, T) -> bool)
    requires TotalOrder(less) && Sorted(xs, less)
    ensures Distinct(xs)
  {
    forall i, j | 0 <= i < j < |xs| ensures xs[i] != xs[j] {
      assert less(xs[i], xs[j]);
    }
  }

  method SortedKeys<T(==, !new)>(keys: set<T>, less: (T, T) -> bool) returns (xs: seq<T>)
    requires TotalOrder(less)
    ensures SortedListing(xs, keys, less)
  {
    xs := [];
    var todo := keys;
    while todo != {}
      invariant todo <= keys && SortedListing(xs, keys - todo, less)
      decreases |todo|
    {
      var x :| x in todo;
      var n := PlaceOf(xs, x, less);
      assert x !in xs;
      if n < |xs| {
        assert xs[n] in xs;
      }
      InsertKeepsListing(xs, keys - todo, x, n, less);
      assert keys - (todo - {x}) == keys - todo + {x};
      xs, todo := xs[..n] + [x] + xs[n..], todo - {x};
    }
  }

  /** How many elements come before x. */
  method PlaceOf<T(!new)>(xs: seq<T>, x: T, less: (T, T) -> bool) returns (n: nat)
    requires TotalOrder(less)
    ensures n <= |xs| && (forall i :: 0 <= i < n ==> less(xs[i], x)) && (n < |xs| ==> !less(xs[n], x))
  {
    n := 0;
    while n < |xs| && less(xs[n], x)
      invariant n <= |xs| && forall i :: 0 <= i < n ==> less(xs[i], x)
    {
      n := n + 1;
    }
  }

  lemma EmptyListing<T>(xs: seq<T>, s: set<T>)
    requires Lists(xs, s)
    ensures xs == [] <==> s == {}
  {
    if xs != [] {
      assert xs[0] in s;
    }
  }

  lemma FirstIsLeast<T>(xs: seq<T>, s: set<T>, less: (T, T) -> bool, x: T)
    requires SortedListing(xs, s, less) && x in s
    ensures xs != [] && (x == xs[0] || less(xs[0], x))
  {
    assert x in xs;
    var i :| 0 <= i < |xs| && xs[i] == x;
  }

  lemma TailListing<T>(xs: seq<T>, s: set<T>, less: (T, T) -> bool)
    requires SortedListing(xs, s, less) && xs != []
    ensures SortedListing(xs[1..], s - {xs[0]}, less)
  {
    assert xs == [xs[0]] + xs[1..];
    assert forall x :: x in xs[1..] <==> x in xs && x != xs[0];
  }

  /** A set has one sorted listing only: sorting forgets the order a map was read in. */
  lemma {:induction false} OneSortedListing<T(!new)>(xs: seq<T>, ys: seq<T>, s: set<T>, less: (T, T) -> bool)
    requires TotalOrder(less) && SortedListing(xs, s, less) && SortedListing(ys, s, less)
    ensures xs == ys
    decreases |xs|
  {
    EmptyListing(xs, s);
    EmptyListing(ys, s);
    if xs != [] {
      FirstIsLeast(xs, s, less, ys[0]);
      FirstIsLeast(ys, s, less, xs[0]);
      TailListing(xs, s, less);
      TailListing(ys, s, less);
      OneSortedListing(xs[1..], ys[1..], s - {xs[0]}, less);
      assert xs == [xs[0]] + xs[1..] && ys == [ys[0]] + ys[1..];
    }
  }
}
