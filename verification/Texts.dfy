/** Ordering of texts, and sorting by a text key. */
module Texts {
  predicate Leq(a: string, b: string) {
    a == "" || (b != "" && (a[0] < b[0] || (a[0] == b[0] && Leq(a[1..], b[1..]))))
  }

  lemma {:induction false} LeqIsTotal(a: string, b: string)
    ensures Leq(a, b) || Leq(b, a)
  {
    if a != "" && b != "" && a[0] == b[0] {
      LeqIsTotal(a[1..], b[1..]);
    }
  }

  lemma {:induction false} LeqIsTransitive(a: string, b: string, c: string)
    requires Leq(a, b) && Leq(b, c)
    ensures Leq(a, c)
  {
    if a != "" && a[0] == b[0] == c[0] {
      LeqIsTransitive(a[1..], b[1..], c[1..]);
    }
  }

  lemma {:induction false} LeqIsAntisymmetric(a: string, b: string)
    requires Leq(a, b) && Leq(b, a)
    ensures a == b
  {
    if a != "" {
      LeqIsAntisymmetric(a[1..], b[1..]);
      assert a == [a[0]] + a[1..] && b == [b[0]] + b[1..];
    }
  }

  function Insert<T>(x: T, xs: seq<T>, key: T -> string): (r: seq<T>)
    ensures multiset(r) == multiset{x} + multiset(xs)
  {
    if xs == [] then [x]
    else if Leq(key(x), key(xs[0])) then [x] + xs
    else
      assert xs == [xs[0]] + xs[1..];
      [xs[0]] + Insert(x, xs[1..], key)
  }

  function SortBy<T>(xs: seq<T>, key: T -> string): (r: seq<T>)
    ensures multiset(r) == multiset(xs)
  {
    if xs == [] then []
    else
      assert xs == [xs[0]] + xs[1..];
      Insert(xs[0], SortBy(xs[1..], key), key)
  }

  predicate SortedBy<T>(xs: seq<T>, key: T -> string) {
    forall i, j :: 0 <= i < j < |xs| ==> Leq(key(xs[i]), key(xs[j]))
  }

  lemma PrependKeepsSorted<T>(x: T, xs: seq<T>, key: T -> string)
    requires SortedBy(xs, key) && xs != [] && Leq(key(x), key(xs[0]))
    ensures SortedBy([x] + xs, key)
  {
    forall j | 0 <= j < |xs| ensures Leq(key(x), key(xs[j])) {
      if j > 0 {
        LeqIsTransitive(key(x), key(xs[0]), key(xs[j]));
      }
    }
  }

  lemma {:induction false} InsertKeepsSorted<T>(x: T, xs: seq<T>, key: T -> string)
    requires SortedBy(xs, key)
    ensures SortedBy(Insert(x, xs, key), key)
    ensures Insert(x, xs, key) != []
    ensures key(Insert(x, xs, key)[0]) == key(x) || (xs != [] && key(Insert(x, xs, key)[0]) == key(xs[0]))
  {
    if xs != [] {
      LeqIsTotal(key(x), key(xs[0]));
      if Leq(key(x), key(xs[0])) {
        PrependKeepsSorted(x, xs, key);
      } else {
        var rest := Insert(x, xs[1..], key);
        InsertKeepsSorted(x, xs[1..], key);
        assert Leq(key(xs[0]), key(rest[0]));
        PrependKeepsSorted(xs[0], rest, key);
      }
    }
  }

  lemma {:induction false} SortSorts<T>(xs: seq<T>, key: T -> string)
    ensures SortedBy(SortBy(xs, key), key)
  {
    if xs != [] {
      SortSorts(xs[1..], key);
      InsertKeepsSorted(xs[0], SortBy(xs[1..], key), key);
    }
  }

  lemma SortMembers<T>(xs: seq<T>, key: T -> string)
    ensures forall x :: x in SortBy(xs, key) <==> x in xs
    ensures |SortBy(xs, key)| == |xs|
  {
    var r := SortBy(xs, key);
    assert forall x :: x in r <==> x in multiset(r);
    assert |multiset(r)| == |r| && |multiset(xs)| == |xs|;
  }
}
