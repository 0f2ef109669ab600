/** The ordering both ranking helpers use: achievement ascending, then
    target descending, then estimated sales ascending, as a stable sort (the
    order Python's sorted() and a multi-column sort_values give). */
module Ranking {
  /** (Ach, -Target, Est): the sort key, compared lexicographically. */
  datatype SortKey = SortKey(ach: int, negTarget: int, est: int)

  function KeyOf(ach: int, target: int, est: int): SortKey {
    SortKey(ach, -target, est)
  }

  predicate KeyLe(a: SortKey, b: SortKey) {
    a.ach < b.ach || (a.ach == b.ach && (a.negTarget < b.negTarget || (a.negTarget == b.negTarget && a.est <= b.est)))
  }

  lemma KeyLeTotal(a: SortKey, b: SortKey)
    ensures KeyLe(a, b) || KeyLe(b, a)
  {
  }

  lemma KeyLeTransitive(a: SortKey, b: SortKey, c: SortKey)
    requires KeyLe(a, b) && KeyLe(b, c)
    ensures KeyLe(a, c)
  {
  }

  lemma KeyLeAntisymmetric(a: SortKey, b: SortKey)
    requires KeyLe(a, b) && KeyLe(b, a)
    ensures a == b
  {
  }

  /** Lower achievement first; at equal achievement, the larger target
      first; then lower estimated sales. */
  lemma KeyOfOrder(a1: int, t1: int, e1: int, a2: int, t2: int, e2: int)
    ensures KeyLe(KeyOf(a1, t1, e1), KeyOf(a2, t2, e2))
      <==> a1 < a2 || (a1 == a2 && (t1 > t2 || (t1 == t2 && e1 <= e2)))
  {
  }

  ghost predicate SortedBy<T>(r: seq<T>, key: T -> SortKey) {
    forall i, j :: 0 <= i < j < |r| ==> KeyLe(key(r[i]), key(r[j]))
  }

  /** Inserts x after every element whose key is at most x's key. */
  function Insert<T>(x: T, s: seq<T>, key: T -> SortKey): (r: seq<T>)
    ensures multiset(r) == multiset(s) + multiset{x}
    decreases |s|
  {
    if s == [] || KeyLe(key(s[|s| - 1]), key(x)) then s + [x]
    else
      var init := s[..|s| - 1];
      assert s == init + [s[|s| - 1]];
      Insert(x, init, key) + [s[|s| - 1]]
  }

  /** sorted(xs, key=...): insertion sort, each element inserted in input
      order. */
  function StableSort<T>(xs: seq<T>, key: T -> SortKey): (r: seq<T>)
    ensures multiset(r) == multiset(xs)
    decreases |xs|
  {
    if xs == [] then []
    else
      assert xs == xs[..|xs| - 1] + [xs[|xs| - 1]];
      Insert(xs[|xs| - 1], StableSort(xs[..|xs| - 1], key), key)
  }

  /** The elements of xs whose key is k, in order. */
  function WithKey<T>(xs: seq<T>, key: T -> SortKey, k: SortKey): seq<T>
    decreases |xs|
  {
    if xs == [] then []
    else WithKey(xs[..|xs| - 1], key, k) + (if key(xs[|xs| - 1]) == k then [xs[|xs| - 1]] else [])
  }

  lemma {:induction false} WithKeyAppend<T>(a: seq<T>, b: seq<T>, key: T -> SortKey, k: SortKey)
    ensures WithKey(a + b, key, k) == WithKey(a, key, k) + WithKey(b, key, k)
    decreases |b|
  {
    if b != [] {
      var b' := b[..|b| - 1];
      assert (a + b)[..|a + b| - 1] == a + b';
      WithKeyAppend(a, b', key, k);
    } else {
      assert a + b == a;
    }
  }

  lemma {:induction false} InsertSorted<T>(x: T, s: seq<T>, key: T -> SortKey)
    requires SortedBy(s, key)
    ensures SortedBy(Insert(x, s, key), key)
    decreases |s|
  {
    if s == [] || KeyLe(key(s[|s| - 1]), key(x)) {
      var r := s + [x];
      forall i, j | 0 <= i < j < |r| ensures KeyLe(key(r[i]), key(r[j])) {
        if j == |s| && i < |s| - 1 {
          KeyLeTransitive(key(s[i]), key(s[|s| - 1]), key(x));
        }
      }
    } else {
      var init := s[..|s| - 1];
      var last := s[|s| - 1];
      InsertSorted(x, init, key);
      var p := Insert(x, init, key);
      KeyLeTotal(key(last), key(x));
      forall i | 0 <= i < |p| ensures KeyLe(key(p[i]), key(last)) {
        assert p[i] in multiset(p);
        if p[i] != x {
          assert p[i] in multiset(init);
          var t :| 0 <= t < |init| && init[t] == p[i];
          assert s[t] == p[i];
        }
      }
    }
  }

  function Single<T>(x: T, key: T -> SortKey, k: SortKey): seq<T> {
    if key(x) == k then [x] else []
  }

  lemma WithKeyLast<T>(init: seq<T>, x: T, key: T -> SortKey, k: SortKey)
    ensures WithKey(init + [x], key, k) == WithKey(init, key, k) + Single(x, key, k)
  {
    assert (init + [x])[..|init + [x]| - 1] == init;
  }

  lemma {:induction false} InsertWithKey<T>(x: T, s: seq<T>, key: T -> SortKey, k: SortKey)
    requires SortedBy(s, key)
    ensures WithKey(Insert(x, s, key), key, k) == WithKey(s, key, k) + Single(x, key, k)
    decreases |s|
  {
    if s == [] || KeyLe(key(s[|s| - 1]), key(x)) {
      WithKeyLast(s, x, key, k);
    } else {
      var init := s[..|s| - 1];
      var last := s[|s| - 1];
      assert s == init + [last];
      assert SortedBy(init, key);
      InsertWithKey(x, init, key, k);
      assert Insert(x, s, key) == Insert(x, init, key) + [last];
      WithKeyLast(Insert(x, init, key), last, key, k);
      WithKeyLast(init, last, key, k);
      KeyLeTotal(key(last), key(x));
      var w, l, e := WithKey(init, key, k), Single(last, key, k), Single(x, key, k);
      assert e == [] || l == [];
      SwapEmpty(w, e, l);
    }
  }

  lemma SwapEmpty<T>(w: seq<T>, e: seq<T>, l: seq<T>)
    requires e == [] || l == []
    ensures (w + e) + l == (w + l) + e
  {
    if e == [] {
      assert w + e == w && w + l + e == w + l;
    } else {
      assert w + l == w && w + e + l == w + e;
    }
  }

  lemma {:induction false} StableSortSorted<T>(xs: seq<T>, key: T -> SortKey)
    ensures SortedBy(StableSort(xs, key), key)
    decreases |xs|
  {
    if xs != [] {
      StableSortSorted(xs[..|xs| - 1], key);
      InsertSorted(xs[|xs| - 1], StableSort(xs[..|xs| - 1], key), key);
    }
  }

  /** Stability: for every key, the elements with that key appear in the
      output in the same order as in the input. */
  lemma {:induction false} StableSortStable<T>(xs: seq<T>, key: T -> SortKey, k: SortKey)
    ensures WithKey(StableSort(xs, key), key, k) == WithKey(xs, key, k)
    decreases |xs|
  {
    if xs != [] {
      var init := xs[..|xs| - 1];
      StableSortStable(init, key, k);
      StableSortSorted(init, key);
      InsertWithKey(xs[|xs| - 1], StableSort(init, key), key, k);
    }
  }
}
