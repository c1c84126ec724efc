/** The shape of a skip list: the tower heights along level 0, header first, and which tower a forward
    pointer leads to. */
module SkipLevels {

  /** The next tower after p that reaches level i, or |levels| when there is none. */
  function NextAt(levels: seq<nat>, p: nat, i: nat): (q: nat)
    requires p < |levels|
    ensures p < q <= |levels|
    ensures forall r :: p < r < q ==> levels[r] < i
    ensures q < |levels| ==> levels[q] >= i
    decreases |levels| - p
  {
    if p + 1 == |levels| || levels[p + 1] >= i then p + 1 else NextAt(levels, p + 1, i)
  }

  lemma {:induction false} NextIs(levels: seq<nat>, p: nat, i: nat, q: nat)
    requires p < |levels| && p < q <= |levels|
    requires forall r :: p < r < q ==> levels[r] < i
    requires q < |levels| ==> levels[q] >= i
    ensures NextAt(levels, p, i) == q
    decreases |levels| - p
  {
    if p + 1 < |levels| && levels[p + 1] < i { NextIs(levels, p + 1, i, q); }
  }

  function Inserted(levels: seq<nat>, m: nat, height: nat): seq<nat>
    requires m <= |levels|
  {
    levels[..m] + [height] + levels[m..]
  }

  /** A new tower before m takes over the pointers that jumped across its place, up to its height. */
  lemma InsertNext(levels: seq<nat>, m: nat, height: nat, p: nat, i: nat)
    requires 1 <= m <= |levels| && p < |levels|
    ensures var q := NextAt(levels, p, i);
            NextAt(Inserted(levels, m, height), if p < m then p else p + 1, i)
            == if p < m && q >= m && i <= height then m else if q < m then q else q + 1
  {
    var q := NextAt(levels, p, i);
    var taller := Inserted(levels, m, height);
    var p' := if p < m then p else p + 1;
    var q' := if p < m && q >= m && i <= height then m else if q < m then q else q + 1;
    forall r | p' < r < q' ensures taller[r] < i {
      if r > m { assert taller[r] == levels[r - 1]; }
    }
    NextIs(taller, p', i, q');
  }

  /** The new tower points where the tower before it pointed. */
  lemma InsertOwn(levels: seq<nat>, m: nat, height: nat, u: nat, i: nat)
    requires u < m <= |levels| && NextAt(levels, u, i) >= m
    ensures NextAt(Inserted(levels, m, height), m, i) == NextAt(levels, u, i) + 1
  {
    var q := NextAt(levels, u, i);
    var taller := Inserted(levels, m, height);
    forall r | m < r < q + 1 ensures taller[r] < i {
      assert taller[r] == levels[r - 1];
    }
    NextIs(taller, m, i, q + 1);
  }

  /** On each level only one tower before m points to m or beyond. */
  lemma OnePredecessor(levels: seq<nat>, m: nat, u: nat, p: nat, i: nat)
    requires u < m <= |levels| && p < m
    requires levels[u] >= i && levels[p] >= i
    requires NextAt(levels, u, i) >= m && NextAt(levels, p, i) >= m
    ensures u == p
  {}

  /** Taking tower m out of the taller list: on its levels its predecessor u takes over its pointer, and
      every other pointer leads where it led. */
  lemma RemoveNext(levels: seq<nat>, m: nat, height: nat, u: nat, p: nat, i: nat)
    requires 1 <= m <= |levels| && p < |levels| && levels[p] >= i
    requires i <= height ==> u < m && levels[u] >= i && NextAt(Inserted(levels, m, height), u, i) >= m
    ensures var q := NextAt(levels, p, i);
            var p' := if p < m then p else p + 1;
            if i <= height && p' == u then q >= m && NextAt(Inserted(levels, m, height), m, i) == q + 1
            else NextAt(Inserted(levels, m, height), p', i) == if q < m then q else q + 1
  {
    InsertNext(levels, m, height, p, i);
    if i <= height {
      InsertNext(levels, m, height, u, i);
      if p < m && NextAt(levels, p, i) >= m { OnePredecessor(levels, m, u, p, i); }
      InsertOwn(levels, m, height, u, i);
    }
  }
}
