/** Log Matching holds of exactly the clean runs: the first message that leaves a stale tail breaks it. */
module MatchingRuns {
  import opened KvTypes
  import opened RaftNode
  import opened Cluster
  import opened EntryIdentity
  import opened StaleTail
  import opened LogPaths
  import opened StateMachineSafety

  /** If both nodes have an entry at the index, and of one term, they have the same entry at k. */
  predicate MatchAt(s: Node, s': Node, index: int, k: int) {
    && Max(s.snapIndex, s'.snapIndex) < k <= index <= Min(Top(s), Top(s'))
    && EntryAt(s, index).term == EntryAt(s', index).term
    ==> EntryAt(s, k) == EntryAt(s', k)
  }

  ghost predicate NodesMatch(s: Node, s': Node) {
    forall index, k :: MatchAt(s, s', index, k)
  }

  /** Log Matching over a whole run: any two nodes at any two times. */
  ghost predicate Matching(run: seq<State>) {
    forall t, u, i, j {:trigger NodesMatch(run[t].nodes[i], run[u].nodes[j])} ::
      0 <= t <= u < |run| && 0 <= i < |run[t].nodes| && 0 <= j < |run[u].nodes| ==>
        NodesMatch(run[t].nodes[i], run[u].nodes[j])
  }

  lemma CleanMatches(n: nat, run: seq<State>)
    requires IsCleanRun(n, run)
    ensures Matching(run)
  {
    forall t: nat, u: nat, i: nat, j: nat, index, k
      | t <= u < |run| && i < |run[t].nodes| && j < |run[u].nodes|
        && Max(run[t].nodes[i].snapIndex, run[u].nodes[j].snapIndex) < k <= index
           <= Min(Top(run[t].nodes[i]), Top(run[u].nodes[j]))
        && EntryAt(run[t].nodes[i], index).term == EntryAt(run[u].nodes[j], index).term
      ensures MatchAt(run[t].nodes[i], run[u].nodes[j], index, k)
    {
      LogMatching(n, run, t, u, i, j, index, k);
    }
  }

  /** A stale tail: the last entry stays, an entry before it is replaced. */
  lemma TailStays(logs: seq<Entry>, off: nat, entries: seq<Entry>) returns (slot: nat)
    requires off + |entries| < |logs| && Conflicts(logs, off, entries)
    ensures var merged := Merged(logs, off, entries);
            && |merged| == |logs| && slot < |logs| - 1
            && merged[|logs| - 1] == logs[|logs| - 1] && merged[slot].term != logs[slot].term
  {
    slot :| off <= slot < off + |entries| && slot < |logs| && logs[slot].term != entries[slot - off].term;
  }

  lemma TailMismatch(s: Node, a: AppendEntriesArgs)
    requires Sound(s) && Contiguous(a) && !CleanAppend(s, a)
    ensures !NodesMatch(s, HandleAppend(s, a).node)
  {
    FollowSame(s, a);
    var slot := TailStays(s.logs, a.prevLogIndex - s.snapIndex, a.entries);
    assert !MatchAt(s, HandleAppend(s, a).node, Top(s), s.snapIndex + slot + 1);
  }

  lemma UncleanStep(c: State, a: Action) returns (i: nat)
    requires Structured(c) && Enabled(c, a) && !Clean(c, a)
    ensures i < |c.nodes| == |Step(c, a).nodes| && !NodesMatch(c.nodes[i], Step(c, a).nodes[i])
  {
    i := a.s;
    var beat := c.beats[a.b];
    assert GoodBeat(c.nodes, beat) && GoodCall(beat, beat.calls[i]) && GoodNode(c.nodes, i);
    TailMismatch(c.nodes[i], beat.calls[i].args);
  }

  lemma StepClean(n: nat, run: seq<State>, t: nat)
    requires IsRun(n, run) && t + 1 < |run| && Matching(run)
    ensures CleanStep(run[t], run[t + 1])
  {
    var a := LastAction(n, run, t + 1);
    if !Clean(run[t], a) {
      var i := UncleanStep(run[t], a);
    }
  }

  /** Log Matching fails in a run if and only if some step of it leaves a stale tail. */
  lemma LogMatchingIff(n: nat, run: seq<State>)
    requires IsRun(n, run)
    ensures IsCleanRun(n, run) <==> Matching(run)
  {
    if IsCleanRun(n, run) {
      CleanMatches(n, run);
    } else if Matching(run) {
      forall t | 0 <= t < |run| - 1 ensures CleanStep(run[t], run[t + 1]) {
        StepClean(n, run, t);
      }
    }
  }
}
