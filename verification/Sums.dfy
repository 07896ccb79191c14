/** Sums over finite sets, for totals that must not depend on iteration order. */
module Sums {

  ghost function Sum<K(!new)>(s: set<K>, f: K -> int): int {
    if s == {} then 0
    else
      var k :| k in s;
      f(k) + Sum(s - {k}, f)
  }

  /** Any element can be the one taken out. */
  lemma {:induction false} SumRemove<K(!new)>(s: set<K>, k: K, f: K -> int)
    requires k in s
    ensures Sum(s, f) == f(k) + Sum(s - {k}, f)
  {
    var p :| p in s && Sum(s, f) == f(p) + Sum(s - {p}, f);
    if p != k {
      SumRemove(s - {p}, k, f);
      SumRemove(s - {k}, p, f);
      assert s - {p} - {k} == s - {k} - {p};
    }
  }

  lemma SumAdd<K(!new)>(s: set<K>, k: K, f: K -> int)
    requires k !in s
    ensures Sum(s + {k}, f) == Sum(s, f) + f(k)
  {
    SumRemove(s + {k}, k, f);
    assert s + {k} - {k} == s;
  }

  lemma {:induction false} SumUnion<K(!new)>(s: set<K>, t: set<K>, f: K -> int)
    requires s !! t
    ensures Sum(s + t, f) == Sum(s, f) + Sum(t, f)
  {
    if t == {} {
      assert s + t == s;
    } else {
      var k :| k in t;
      SumRemove(t, k, f);
      SumUnion(s, t - {k}, f);
      SumAdd(s + (t - {k}), k, f);
      assert s + t == s + (t - {k}) + {k};
    }
  }

  lemma {:induction false} SumEqual<K(!new)>(s: set<K>, f: K -> int, g: K -> int)
    requires forall k | k in s :: f(k) == g(k)
    ensures Sum(s, f) == Sum(s, g)
  {
    if s != {} {
      var k :| k in s;
      SumRemove(s, k, f);
      SumRemove(s, k, g);
      SumEqual(s - {k}, f, g);
    }
  }

  lemma {:induction false} SumMonotone<K(!new)>(s: set<K>, f: K -> int, g: K -> int)
    requires forall k | k in s :: f(k) <= g(k)
    ensures Sum(s, f) <= Sum(s, g)
  {
    if s != {} {
      var k :| k in s;
      SumRemove(s, k, f);
      SumRemove(s, k, g);
      SumMonotone(s - {k}, f, g);
    }
  }

  lemma {:induction false} SumStrict<K(!new)>(s: set<K>, f: K -> int, g: K -> int)
    requires s != {} && forall k | k in s :: f(k) < g(k)
    ensures Sum(s, f) < Sum(s, g)
  {
    var k :| k in s;
    SumRemove(s, k, f);
    SumRemove(s, k, g);
    SumMonotone(s - {k}, f, g);
  }

  lemma {:induction false} SumNonNegative<K(!new)>(s: set<K>, f: K -> int)
    requires forall k | k in s :: 0 <= f(k)
    ensures 0 <= Sum(s, f)
  {
    if s != {} {
      var k :| k in s;
      SumRemove(s, k, f);
      SumNonNegative(s - {k}, f);
    }
  }

  /** No term of a sum of non-negative terms exceeds the sum. */
  lemma SumBound<K(!new)>(s: set<K>, f: K -> int, n: int)
    requires forall k | k in s :: 0 <= f(k)
    requires Sum(s, f) < n
    ensures forall k | k in s :: f(k) < n
  {
    forall k | k in s ensures f(k) < n {
      SumRemove(s, k, f);
      SumNonNegative(s - {k}, f);
    }
  }

  /** A sum over the image of an injective map. */
  lemma {:induction false} SumImage<K(!new), L(!new)>(s: set<K>, m: K -> L, image: set<L>, f: L -> int, g: K -> int)
    requires image == set k | k in s :: m(k)
    requires forall k, l | k in s && l in s && m(k) == m(l) :: k == l
    requires forall k | k in s :: g(k) == f(m(k))
    ensures Sum(image, f) == Sum(s, g)
  {
    if s == {} {
      assert image == {};
    } else {
      var k :| k in s;
      SumImage(s - {k}, m, image - {m(k)}, f, g);
      SumRemove(s, k, g);
      SumRemove(image, m(k), f);
    }
  }
}
