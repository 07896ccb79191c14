/** Stable sorting by a lexicographic key, and when the sorted order is unique. */
module Sorting {

  datatype Key = Key(a: int, b: int, c: int)

  predicate Le(k: Key, l: Key) {
    k.a < l.a || (k.a == l.a && (k.b < l.b || (k.b == l.b && k.c <= l.c)))
  }

  ghost predicate Sorted<T>(xs: seq<T>, key: T -> Key) {
    forall i, j | 0 <= i < j < |xs| :: Le(key(xs[i]), key(xs[j]))
  }

  function Insert<T>(x: T, xs: seq<T>, key: T -> Key): (ys: seq<T>)
    ensures multiset(ys) == multiset(xs) + multiset{x}
  {
    if xs == [] || Le(key(x), key(xs[0])) then
      assert [x] + xs == [x] + xs;
      [x] + xs
    else
      assert xs == [xs[0]] + xs[1..];
      [xs[0]] + Insert(x, xs[1..], key)
  }

  function SortBy<T>(xs: seq<T>, key: T -> Key): (ys: seq<T>)
    ensures multiset(ys) == multiset(xs)
  {
    if xs == [] then []
    else
      assert xs == [xs[0]] + xs[1..];
      Insert(xs[0], SortBy(xs[1..], key), key)
  }

  lemma {:induction false} InsertSorted<T>(x: T, xs: seq<T>, key: T -> Key)
    requires Sorted(xs, key)
    ensures Sorted(Insert(x, xs, key), key)
  {
    if xs != [] && !Le(key(x), key(xs[0])) {
      var rest := Insert(x, xs[1..], key);
      InsertSorted(x, xs[1..], key);
      forall y | y in rest ensures Le(key(xs[0]), key(y)) {
        assert y in multiset(rest);
        assert y == x || y in xs[1..];
      }
    }
  }

  lemma {:induction false} SortBySorted<T>(xs: seq<T>, key: T -> Key)
    ensures Sorted(SortBy(xs, key), key)
  {
    if xs != [] {
      SortBySorted(xs[1..], key);
      InsertSorted(xs[0], SortBy(xs[1..], key), key);
    }
  }

  ghost predicate Injective<T>(xs: seq<T>, key: T -> Key) {
    forall x, y | x in xs && y in xs && key(x) == key(y) :: x == y
  }

  lemma SameHead<T>(xs: seq<T>, ys: seq<T>, key: T -> Key)
    requires xs != [] && multiset(xs) == multiset(ys)
    requires Sorted(xs, key) && Sorted(ys, key) && Injective(xs, key)
    ensures ys != [] && xs[0] == ys[0]
  {
    assert ys != [] by {
      assert xs[0] in multiset(ys);
    }
    assert xs[0] in multiset(ys) && ys[0] in multiset(xs);
    var i :| 0 <= i < |ys| && ys[i] == xs[0];
    var j :| 0 <= j < |xs| && xs[j] == ys[0];
  }

  lemma TailSorted<T>(xs: seq<T>, key: T -> Key)
    requires xs != [] && Sorted(xs, key)
    ensures Sorted(xs[1..], key) && multiset(xs[1..]) == multiset(xs) - multiset{xs[0]}
    ensures Injective(xs, key) ==> Injective(xs[1..], key)
  {
    assert xs == [xs[0]] + xs[1..];
  }

  /** Two sorted listings of the same elements are equal when equal keys mean equal elements. */
  lemma {:induction false} SortedUnique<T>(xs: seq<T>, ys: seq<T>, key: T -> Key)
    requires multiset(xs) == multiset(ys)
    requires Sorted(xs, key) && Sorted(ys, key) && Injective(xs, key)
    ensures xs == ys
  {
    hide Sorted, Injective;
    if xs == [] {
      assert |multiset(ys)| == 0;
    } else {
      var x, xs', ys' := xs[0], xs[1..], ys[1..];
      SameHead(xs, ys, key);
      TailSorted(xs, key);
      TailSorted(ys, key);
      SortedUnique(xs', ys', key);
      assert xs == [x] + xs' && ys == [x] + ys';
    }
  }
}
