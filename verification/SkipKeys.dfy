/** The order of keys, and sorted lists of pairs as maps. */
module SkipKeys {

  type Pairs<T> = seq<(T, T)>
  type Order<!T> = (T, T) -> bool

  // Names the instances at which the laws of an order are used
  predicate At<T>(a: T, b: T, c: T) { true }

  /** What the template asks of operator<. */
  ghost predicate StrictOrder<T(!new)>(less: Order<T>) {
    && (forall a, b, c {:trigger At(a, b, c)} :: At(a, b, c) && less(a, b) && less(b, c) ==> less(a, c))
    && (forall a, b, c {:trigger At(a, b, c)} :: At(a, b, c) ==> !less(a, a) && (less(a, b) || a == b || less(b, a)))
  }

  lemma Transitive<T(!new)>(less: Order<T>, a: T, b: T, c: T)
    requires StrictOrder(less) && less(a, b) && less(b, c)
    ensures less(a, c)
  {
    assert At(a, b, c);
  }

  lemma Trichotomy<T(!new)>(less: Order<T>, a: T, b: T)
    requires StrictOrder(less)
    ensures less(a, b) || a == b || less(b, a)
    ensures a == b ==> !less(a, b)
    ensures less(a, b) ==> !less(b, a)
  {
    assert At(a, b, a);
  }

  ghost predicate Sorted<T>(less: Order<T>, ps: Pairs<T>) {
    forall i, j :: 0 <= i < j < |ps| ==> less(ps[i].0, ps[j].0)
  }

  function MapOf<T(==)>(ps: Pairs<T>): map<T, T> {
    if ps == [] then map[] else MapOf(ps[..|ps| - 1])[ps[|ps| - 1].0 := ps[|ps| - 1].1]
  }

  ghost predicate Has<T>(ps: Pairs<T>, k: T, v: T) {
    exists i :: 0 <= i < |ps| && ps[i] == (k, v)
  }

  /** A list without repeated keys is its map: the same pairs. */
  ghost predicate Lists<T(!new)>(ps: Pairs<T>, m: map<T, T>) {
    forall k, v :: Has(ps, k, v) <==> k in m && m[k] == v
  }

  lemma DistinctKeys<T(!new)>(less: Order<T>, ps: Pairs<T>, i: nat, j: nat)
    requires StrictOrder(less) && Sorted(less, ps) && i < |ps| && j < |ps| && ps[i].0 == ps[j].0
    ensures i == j
  {
    Trichotomy(less, ps[i].0, ps[j].0);
  }

  /** A sorted list has the pairs of its map, and as many. */
  lemma {:induction false} MapOfSorted<T(!new)>(less: Order<T>, ps: Pairs<T>)
    requires StrictOrder(less) && Sorted(less, ps)
    ensures Lists(ps, MapOf(ps)) && |MapOf(ps)| == |ps|
  {
    if ps != [] {
      var n := |ps| - 1;
      var front := ps[..n];
      var m := MapOf(front);
      MapOfSorted(less, front);
      if ps[n].0 in m {
        assert Has(front, ps[n].0, m[ps[n].0]);
        var i :| 0 <= i < |front| && front[i] == (ps[n].0, m[ps[n].0]);
        DistinctKeys(less, ps, i, n);
      }
      forall k, v ensures Has(ps, k, v) <==> k in MapOf(ps) && MapOf(ps)[k] == v {
        if i :| 0 <= i < |ps| && ps[i] == (k, v) {
          if i < n { assert front[i] == (k, v); assert Has(front, k, v); }
        }
        if Has(front, k, v) {
          var i :| 0 <= i < |front| && front[i] == (k, v);
          assert ps[i] == (k, v);
        }
        assert ps[n] == (ps[n].0, ps[n].1);
      }
    }
  }

  lemma ListsUnique<T(!new)>(ps: Pairs<T>, m: map<T, T>, n: map<T, T>)
    requires Lists(ps, m) && Lists(ps, n)
    ensures m == n
  {
    forall k | k in m ensures k in n && n[k] == m[k] {
      assert Has(ps, k, m[k]);
    }
    forall k | k in n ensures k in m {
      assert Has(ps, k, n[k]);
    }
  }

  /** Where a key belongs: everything before it is smaller, and what is there is not. */
  ghost predicate SplitsAt<T>(less: Order<T>, ps: Pairs<T>, k: T, at: nat) {
    && at <= |ps|
    && (forall i :: 0 <= i < at ==> less(ps[i].0, k))
    && (at < |ps| ==> !less(ps[at].0, k))
  }

  lemma AfterSplit<T(!new)>(less: Order<T>, ps: Pairs<T>, k: T, at: nat, i: nat)
    requires StrictOrder(less) && Sorted(less, ps) && SplitsAt(less, ps, k, at) && at <= i < |ps|
    ensures ps[i].0 != k ==> less(k, ps[i].0)
    ensures i > at ==> ps[i].0 != k
  {
    Trichotomy(less, ps[at].0, k);
    Trichotomy(less, ps[i].0, k);
    if i > at && ps[at].0 != k { Transitive(less, k, ps[at].0, ps[i].0); }
  }

  /** Searching stops at the key, or there is none. */
  lemma Found<T(!new)>(less: Order<T>, ps: Pairs<T>, k: T, at: nat)
    requires StrictOrder(less) && Sorted(less, ps) && SplitsAt(less, ps, k, at)
    ensures k in MapOf(ps) <==> at < |ps| && ps[at].0 == k
    ensures k in MapOf(ps) ==> MapOf(ps)[k] == ps[at].1
  {
    MapOfSorted(less, ps);
    if k in MapOf(ps) {
      assert Has(ps, k, MapOf(ps)[k]);
      var i :| 0 <= i < |ps| && ps[i] == (k, MapOf(ps)[k]);
      Trichotomy(less, k, k);
    }
    if at < |ps| && ps[at].0 == k { assert Has(ps, k, ps[at].1); }
  }

  function Insert<T>(ps: Pairs<T>, at: nat, k: T, v: T): Pairs<T>
    requires at <= |ps|
  {
    ps[..at] + [(k, v)] + ps[at..]
  }

  function Remove<T>(ps: Pairs<T>, at: nat): Pairs<T>
    requires at < |ps|
  {
    ps[..at] + ps[at + 1..]
  }

  lemma InsertSorted<T(!new)>(less: Order<T>, ps: Pairs<T>, k: T, v: T, at: nat)
    requires StrictOrder(less) && Sorted(less, ps) && SplitsAt(less, ps, k, at)
    requires at < |ps| ==> ps[at].0 != k
    ensures Sorted(less, Insert(ps, at, k, v))
  {
    var qs := Insert(ps, at, k, v);
    forall i, j | 0 <= i < j < |qs| ensures less(qs[i].0, qs[j].0) {
      if i == at { AfterSplit(less, ps, k, at, j - 1); }
    }
  }

  lemma HasInserted<T>(ps: Pairs<T>, k: T, v: T, at: nat, x: T, y: T)
    requires at <= |ps|
    ensures Has(Insert(ps, at, k, v), x, y) <==> Has(ps, x, y) || (x == k && y == v)
  {
    var qs := Insert(ps, at, k, v);
    if i :| 0 <= i < |ps| && ps[i] == (x, y) {
      assert qs[if i < at then i else i + 1] == (x, y);
    }
    assert qs[at] == (k, v);
    if i :| 0 <= i < |qs| && qs[i] == (x, y) {
      if i != at { assert ps[if i < at then i else i - 1] == (x, y); }
    }
  }

  lemma HasRemoved<T>(ps: Pairs<T>, at: nat, x: T, y: T)
    requires at < |ps|
    ensures Has(ps, x, y) <==> Has(Remove(ps, at), x, y) || ps[at] == (x, y)
  {
    HasInserted(Remove(ps, at), ps[at].0, ps[at].1, at, x, y);
    assert Insert(Remove(ps, at), at, ps[at].0, ps[at].1) == ps;
  }

  /** Inserting at the split is map update. */
  lemma InsertMap<T(!new)>(less: Order<T>, ps: Pairs<T>, k: T, v: T, at: nat)
    requires StrictOrder(less) && Sorted(less, ps) && SplitsAt(less, ps, k, at) && k !in MapOf(ps)
    ensures Sorted(less, Insert(ps, at, k, v)) && MapOf(Insert(ps, at, k, v)) == MapOf(ps)[k := v]
  {
    var qs := Insert(ps, at, k, v);
    Found(less, ps, k, at);
    InsertSorted(less, ps, k, v, at);
    MapOfSorted(less, ps);
    MapOfSorted(less, qs);
    forall x, y ensures Has(qs, x, y) <==> x in MapOf(ps)[k := v] && MapOf(ps)[k := v][x] == y {
      HasInserted(ps, k, v, at, x, y);
      assert Has(ps, x, y) <==> x in MapOf(ps) && MapOf(ps)[x] == y;
    }
    ListsUnique(qs, MapOf(qs), MapOf(ps)[k := v]);
  }

  /** Removing a pair removes its key. */
  lemma RemoveMap<T(!new)>(less: Order<T>, ps: Pairs<T>, at: nat)
    requires StrictOrder(less) && Sorted(less, ps) && at < |ps|
    ensures Sorted(less, Remove(ps, at)) && MapOf(Remove(ps, at)) == MapOf(ps) - {ps[at].0}
  {
    var qs := Remove(ps, at);
    MapOfSorted(less, ps);
    MapOfSorted(less, qs);
    var m := MapOf(ps) - {ps[at].0};
    forall x, y ensures Has(qs, x, y) <==> x in m && m[x] == y {
      HasRemoved(ps, at, x, y);
      assert Has(ps, x, y) <==> x in MapOf(ps) && MapOf(ps)[x] == y;
      if i :| 0 <= i < |qs| && qs[i] == (x, y) {
        if x == ps[at].0 { DistinctKeys(less, ps, if i < at then i else i + 1, at); }
      }
    }
    ListsUnique(qs, MapOf(qs), m);
  }

  /** Without its last pair a sorted list lists the map without that key. */
  lemma WithoutLast<T(!new)>(less: Order<T>, ps: Pairs<T>)
    requires StrictOrder(less) && Sorted(less, ps) && ps != []
    ensures var n := |ps| - 1; Sorted(less, ps[..n]) && MapOf(ps[..n]) == MapOf(ps) - {ps[n].0}
  {
    var n := |ps| - 1;
    RemoveMap(less, ps, n);
    assert Remove(ps, n) == ps[..n];
  }

  /** A map has one sorted list. */
  lemma {:induction false} SortedUnique<T(!new)>(less: Order<T>, ps: Pairs<T>, qs: Pairs<T>)
    requires StrictOrder(less) && Sorted(less, ps) && Sorted(less, qs) && MapOf(ps) == MapOf(qs)
    ensures ps == qs
    decreases |ps|
  {
    SameLength(less, ps, qs);
    if ps != [] {
      LastIsGreatest(less, ps, qs);
      WithoutLast(less, ps);
      WithoutLast(less, qs);
      var n := |ps| - 1;
      SortedUnique(less, ps[..n], qs[..n]);
      assert ps == ps[..n] + [ps[n]] && qs == qs[..n] + [qs[n]];
    }
  }

  lemma SameLength<T(!new)>(less: Order<T>, ps: Pairs<T>, qs: Pairs<T>)
    requires StrictOrder(less) && Sorted(less, ps) && Sorted(less, qs) && MapOf(ps) == MapOf(qs)
    ensures |ps| == |qs|
  {
    MapOfSorted(less, ps);
    MapOfSorted(less, qs);
  }

  lemma LastIsGreatest<T(!new)>(less: Order<T>, ps: Pairs<T>, qs: Pairs<T>)
    requires StrictOrder(less) && Sorted(less, ps) && Sorted(less, qs) && MapOf(ps) == MapOf(qs)
    requires |ps| == |qs| > 0
    ensures ps[|ps| - 1] == qs[|qs| - 1]
  {
    var n := |ps| - 1;
    MapOfSorted(less, ps);
    MapOfSorted(less, qs);
    assert Has(ps, ps[n].0, ps[n].1) && Has(qs, qs[n].0, qs[n].1);
    assert Has(qs, ps[n].0, ps[n].1) && Has(ps, qs[n].0, qs[n].1);
    var i :| 0 <= i < |ps| && ps[i] == (qs[n].0, qs[n].1);
    var j :| 0 <= j < |qs| && qs[j] == (ps[n].0, ps[n].1);
    Trichotomy(less, ps[n].0, qs[n].0);
  }
}
