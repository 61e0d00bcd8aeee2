// Listings of finite sets: the order in which a loop over a map runs.

module Listing {
  predicate Distinct<T(==)>(xs: seq<T>) {
    forall i, j :: 0 <= i < j < |xs| ==> xs[i] != xs[j]
  }

  /** A listing of a set: every element, once. */
  predicate Lists<T(==)>(xs: seq<T>, s: set<T>) {
    Distinct(xs) && s == (set x | x in xs)
  }

  /** A listing is as long as the set is large. */
  lemma {:induction false} ListingLength<T>(xs: seq<T>, s: set<T>)
    requires Lists(xs, s)
    ensures |xs| == |s|
    decreases |xs|
  {
    if xs == [] {
      assert s == {};
    } else {
      var init, last := xs[..|xs| - 1], xs[|xs| - 1];
      assert xs == init + [last];
      assert last !in init;
      assert s == (set x | x in init) + {last};
      ListingLength(init, set x | x in init);
    }
  }

  lemma ListsOneMore<T>(xs: seq<T>, s: set<T>, x: T)
    requires Lists(xs, s) && x !in s
    ensures Lists(xs + [x], s + {x})
  {}

  /** A map's keys in some order. */
  method KeysOf<T(==)>(keys: set<T>) returns (xs: seq<T>)
    ensures Lists(xs, keys)
  {
    xs := [];
    var todo := keys;
    while todo != {}
      invariant todo <= keys && Lists(xs, keys - todo)
      decreases |todo|
    {
      var k :| k in todo;
      ListsOneMore(xs, keys - todo, k);
      assert keys - (todo - {k}) == keys - todo + {k};
      xs, todo := xs + [k], todo - {k};
    }
  }
}
