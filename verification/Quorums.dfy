/** Majorities of the nodes 0 .. n-1. */
module Quorums {
  import opened RaftNode

  predicate Below(s: set<nat>, n: nat) {
    forall i :: i in s ==> i < n
  }

  lemma {:induction false} BelowSize(s: set<nat>, n: nat)
    requires Below(s, n)
    ensures |s| <= n
  {
    if n == 0 {
      assert s == {};
    } else {
      BelowSize(s - {n - 1}, n - 1);
      assert s <= (s - {n - 1}) + {n - 1};
      if n - 1 in s { assert |s| == |s - {n - 1}| + 1; } else { assert s == s - {n - 1}; }
    }
  }

  /** Two majorities share a node. */
  lemma QuorumsMeet(s: set<nat>, t: set<nat>, n: nat) returns (i: nat)
    requires Below(s, n) && Below(t, n)
    requires |s| >= Quorum(n) && |t| >= Quorum(n)
    ensures i in s && i in t
  {
    BelowSize(s + t, n);
    assert |s + t| == |s| + |t| - |s * t|;
    i :| i in s * t;
  }

  /** What is left of n nodes after a majority was taken out is no majority: a counter that was reset
      to 0 when it reached one never reaches a second. */
  lemma NoSecondMajority(counted: set<nat>, n: nat, counter: nat)
    requires Below(counted, n)
    requires |counted| == counter + Quorum(n)
    ensures counter < Quorum(n)
  {
    BelowSize(counted, n);
  }
}
