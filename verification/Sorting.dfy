/** Stable sorting by a pair of strings, and why it gives a canonical form. */
module Sorting {
  import opened Text

  type Key = (string, string)

  function Insert<T>(x: T, key: T -> Key, xs: seq<T>): seq<T> {
    if xs == [] || !PairLess(key(xs[0]), key(x)) then [x] + xs else [xs[0]] + Insert(x, key, xs[1..])
  }

  function SortBy<T>(xs: seq<T>, key: T -> Key): seq<T> {
    if xs == [] then [] else Insert(xs[0], key, SortBy(xs[1..], key))
  }

  predicate Ascending<T>(xs: seq<T>, key: T -> Key) {
    forall i, j | 0 <= i < j < |xs| :: PairLess(key(xs[i]), key(xs[j]))
  }

  predicate DistinctKeys<T>(xs: seq<T>, key: T -> Key) {
    forall i, j | 0 <= i < j < |xs| :: key(xs[i]) != key(xs[j])
  }

  lemma {:induction false} InsertPermutes<T>(x: T, key: T -> Key, xs: seq<T>)
    ensures multiset(Insert(x, key, xs)) == multiset(xs) + multiset{x}
    ensures |Insert(x, key, xs)| == |xs| + 1
  {
    if xs != [] && PairLess(key(xs[0]), key(x)) {
      InsertPermutes(x, key, xs[1..]);
      assert xs == [xs[0]] + xs[1..];
    }
  }

  lemma {:induction false} SortPermutes<T>(xs: seq<T>, key: T -> Key)
    ensures multiset(SortBy(xs, key)) == multiset(xs) && |SortBy(xs, key)| == |xs|
  {
    if xs != [] {
      SortPermutes(xs[1..], key);
      InsertPermutes(xs[0], key, SortBy(xs[1..], key));
      assert xs == [xs[0]] + xs[1..];
    }
  }

  lemma {:induction false} InsertAscends<T>(x: T, key: T -> Key, xs: seq<T>)
    requires Ascending(xs, key) && forall i | 0 <= i < |xs| :: key(xs[i]) != key(x)
    ensures Ascending(Insert(x, key, xs), key)
    ensures forall y | y in Insert(x, key, xs) :: y == x || y in xs
  {
    if xs == [] || !PairLess(key(xs[0]), key(x)) {
      var r := [x] + xs;
      forall i, j | 0 <= i < j < |r| ensures PairLess(key(r[i]), key(r[j])) {
        if i == 0 {
          PairLessTotal(key(xs[0]), key(x));
          if j > 1 { PairLessTransitive(key(x), key(xs[0]), key(xs[j - 1])); }
        }
      }
    } else {
      InsertAscends(x, key, xs[1..]);
      var tail := Insert(x, key, xs[1..]);
      var r := [xs[0]] + tail;
      forall j | 0 < j < |r| ensures PairLess(key(r[0]), key(r[j])) {
        assert r[j] == tail[j - 1] && tail[j - 1] in tail;
        if r[j] != x {
          var k :| 0 <= k < |xs[1..]| && xs[1..][k] == r[j];
          assert xs[k + 1] == r[j];
        }
      }
    }
  }

  lemma {:induction false} SortAscends<T>(xs: seq<T>, key: T -> Key)
    requires DistinctKeys(xs, key)
    ensures Ascending(SortBy(xs, key), key)
  {
    if xs != [] {
      SortAscends(xs[1..], key);
      SortPermutes(xs[1..], key);
      var sorted := SortBy(xs[1..], key);
      forall i | 0 <= i < |sorted| ensures key(sorted[i]) != key(xs[0]) {
        assert sorted[i] in multiset(sorted);
        assert sorted[i] in xs[1..];
        var k :| 0 <= k < |xs[1..]| && xs[1..][k] == sorted[i];
        assert xs[k + 1] == sorted[i];
      }
      InsertAscends(xs[0], key, sorted);
    }
  }

  /** An ascending arrangement of a bag is unique. */
  lemma {:induction false} AscendingUnique<T>(a: seq<T>, b: seq<T>, key: T -> Key)
    requires Ascending(a, key) && Ascending(b, key) && multiset(a) == multiset(b)
    ensures a == b
  {
    hide PairLess;
    assert |a| == |multiset(a)| && |b| == |multiset(b)|;
    if a != [] {
      SameHead(a, b, key);
      TailBag(a);
      TailBag(b);
      AscendingUnique(a[1..], b[1..], key);
      assert a == [a[0]] + a[1..] && b == [b[0]] + b[1..];
    }
  }

  lemma TailBag<T>(a: seq<T>)
    requires a != []
    ensures multiset(a[1..]) == multiset(a) - multiset{a[0]}
  {
    assert a == [a[0]] + a[1..];
  }

  lemma SameHead<T>(a: seq<T>, b: seq<T>, key: T -> Key)
    requires a != [] && b != [] && Ascending(a, key) && Ascending(b, key) && multiset(a) == multiset(b)
    ensures a[0] == b[0]
  {
    LeadsBag(a, b, key);
    LeadsBag(b, a, key);
    hide Ascending, PairLess;
    PairLessIrreflexive(key(a[0]));
    if PairLess(key(a[0]), key(b[0])) && PairLess(key(b[0]), key(a[0])) {
      PairLessTransitive(key(a[0]), key(b[0]), key(a[0]));
    }
  }

  lemma LeadsBag<T>(a: seq<T>, b: seq<T>, key: T -> Key)
    requires a != [] && b != [] && Ascending(a, key) && multiset(a) == multiset(b)
    ensures b[0] == a[0] || PairLess(key(a[0]), key(b[0]))
  {
    assert b[0] in multiset(b);
    assert b[0] in a;
    var i :| 0 <= i < |a| && a[i] == b[0];
  }

  /** Sorting forgets exactly the order: two lists with distinct keys sort to the same list if
      and only if they are permutations of each other. */
  lemma SortIsCanonical<T>(a: seq<T>, b: seq<T>, key: T -> Key)
    requires DistinctKeys(a, key) && DistinctKeys(b, key)
    ensures SortBy(a, key) == SortBy(b, key) <==> multiset(a) == multiset(b)
  {
    SortPermutes(a, key);
    SortPermutes(b, key);
    SortAscends(a, key);
    SortAscends(b, key);
    if multiset(a) == multiset(b) {
      AscendingUnique(SortBy(a, key), SortBy(b, key), key);
    }
  }
}
