/** Compaction is invisible: a node with a snapshot marker answers like one that still has its full log
    from index 1. */
module Compaction {
  import opened KvTypes
  import opened RaftNode

  const BLANK := Record(0, NOBODY, 0, 0, [])

  function Unsaved(s: Node): Node {
    s.(saved := BLANK, snapshot := NoImage)
  }

  /** The node that never took a snapshot; what is on disk is left out of the comparison. */
  function View(s: Node, full: seq<Entry>): Node {
    Unsaved(s.(logs := full, snapIndex := 0, snapTerm := 0))
  }

  /** The node's log is the end of the full log, and its marker is the entry before it. */
  predicate Refines(s: Node, full: seq<Entry>) {
    && Sound(s) && Sound(View(s, full))
    && |full| == s.snapIndex + |s.logs|
    && full[s.snapIndex..] == s.logs
    && s.snapTerm == TermAt(View(s, full), s.snapIndex)
  }

  lemma SameTerms(s: Node, full: seq<Entry>, i: int)
    requires Refines(s, full) && s.snapIndex <= i <= |full|
    ensures TermAt(s, i) == TermAt(View(s, full), i)
  {
    if i > s.snapIndex { assert full[s.snapIndex..][i - s.snapIndex - 1] == full[i - 1]; }
  }

  lemma SameEnd(s: Node, full: seq<Entry>)
    requires Refines(s, full)
    ensures LastIndex(s) == LastIndex(View(s, full)) && LastTerm(s) == LastTerm(View(s, full))
  {
    LastIndexSound(s);
    LastIndexSound(View(s, full));
    SameTerms(s, full, |full|);
  }

  /** Votes: the up-to-date test sees no difference. */
  lemma SameVote(s: Node, full: seq<Entry>, a: RequestVoteArgs)
    requires Refines(s, full)
    ensures VoteRequest(s) == VoteRequest(View(s, full))
    ensures var out := HandleRequestVote(s, a); var out' := HandleRequestVote(View(s, full), a);
            && out.reply == out'.reply
            && Unsaved(out'.node) == View(out.node, full)
            && Refines(out.node, full)
  {
    SameEnd(s, full);
    var t := HandleRequestVote(s, a).node;
    RefinesKept(s, t, full);
  }

  lemma RefinesKept(s: Node, t: Node, full: seq<Entry>)
    requires Refines(s, full) && s.term <= t.term
    requires t == s.(term := t.term, votedFor := t.votedFor, status := t.status, saved := t.saved)
    ensures Refines(t, full)
  {
    assert TermAt(View(t, full), s.snapIndex) == TermAt(View(s, full), s.snapIndex);
  }

  /** The rejection hint is bounded by the commit index, so it never asks below the marker. */
  lemma {:induction false} SameHint(s: Node, full: seq<Entry>, term: int, idx: int)
    requires Refines(s, full) && s.snapIndex - 1 <= idx <= |full|
    ensures Backtrack(s, term, idx) == Backtrack(View(s, full), term, idx)
    decreases idx + 1
  {
    if idx >= s.commitIndex {
      SameTerms(s, full, idx);
      if TermAt(s, idx) == term { SameHint(s, full, term, idx - 1); }
    }
  }

  lemma AcceptedRefines(s: Node, full: seq<Entry>, a: AppendEntriesArgs)
    requires Refines(s, full) && Contiguous(a) && a.term <= s.term && s.snapIndex <= a.prevLogIndex <= |full|
    ensures var t := Accepted(s, a); var t' := Accepted(View(s, full), a);
            Refines(t, t'.logs) && View(t, t'.logs) == t'
  {
    var t := Accepted(s, a);
    var t' := Accepted(View(s, full), a);
    AcceptedSteady(s, a);
    AcceptedSteady(View(s, full), a);
    assert t'.logs[s.snapIndex..] == t.logs;
    assert TermAt(t', s.snapIndex) == TermAt(View(s, full), s.snapIndex);
  }

  lemma RejectedSame(s: Node, full: seq<Entry>, a: AppendEntriesArgs)
    requires Refines(s, full) && Contiguous(a) && s.snapIndex <= a.prevLogIndex <= |full| && !Matches(s, a)
    ensures Compared(View(s, full), a).reply == Compared(s, a).reply
    ensures Compared(s, a).node == Persist(s) && Compared(View(s, full), a).node == Persist(View(s, full))
  {
    SameTerms(s, full, a.prevLogIndex);
    SameHint(s, full, TermAt(s, a.prevLogIndex), a.prevLogIndex);
  }

  lemma PersistRefines(s: Node, full: seq<Entry>)
    requires Refines(s, full)
    ensures Refines(Persist(s), full) && View(Persist(s), full) == View(s, full)
  {
    RefinesKept(s, Persist(s), full);
  }

  lemma ComparedSame(s: Node, full: seq<Entry>, a: AppendEntriesArgs)
    requires Refines(s, full) && Contiguous(a) && a.term <= s.term && s.snapIndex <= a.prevLogIndex
    ensures var out := Compared(s, a); var out' := Compared(View(s, full), a);
            && out.reply == out'.reply
            && Refines(out.node, out'.node.logs)
            && View(out.node, out'.node.logs) == Unsaved(out'.node)
  {
    if a.prevLogIndex > |full| {
      PersistRefines(s, full);
    } else if Matches(s, a) {
      SameTerms(s, full, a.prevLogIndex);
      AcceptedRefines(s, full, a);
      PersistRefines(Accepted(s, a), Accepted(View(s, full), a).logs);
    } else {
      RejectedSame(s, full, a);
      PersistRefines(s, full);
    }
  }

  lemma FollowRefines(s: Node, full: seq<Entry>, term: int)
    requires Refines(s, full) && s.term <= term
    ensures Refines(Follow(s, term), full) && View(Follow(s, term), full) == Follow(View(s, full), term)
  {
    RefinesKept(s, Follow(s, term), full);
  }

  /** Replication: every message at or above the marker is answered the same, hint included, and both
      nodes end with the same log. */
  lemma SameAppend(s: Node, full: seq<Entry>, a: AppendEntriesArgs)
    requires Refines(s, full) && Contiguous(a) && s.snapIndex <= a.prevLogIndex
    ensures var out := HandleAppend(s, a); var out' := HandleAppend(View(s, full), a);
            && out.reply == out'.reply
            && Refines(out.node, out'.node.logs)
            && View(out.node, out'.node.logs) == Unsaved(out'.node)
  {
    if a.term >= s.term {
      FollowRefines(s, full, a.term);
      ComparedSame(Follow(s, a.term), full, a);
    }
  }

  /** A leader sends the same message to every peer that does not need the snapshot. */
  lemma SameMessage(s: Node, full: seq<Entry>, server: nat)
    requires Refines(s, full) && server < s.peers && s.snapIndex < s.nextIndex[server] <= |full| + 1
    ensures BuildAppend(s, server) == BuildAppend(View(s, full), server)
  {
    var prev := s.nextIndex[server] - 1;
    SameTerms(s, full, prev);
    assert full[s.snapIndex..][prev - s.snapIndex..] == full[prev..];
  }

  /** The same commands are handed to the state machine. */
  lemma SameCommands(s: Node, full: seq<Entry>)
    requires Refines(s, full)
    ensures ApplyLogs(s) == ApplyLogs(View(s, full))
    ensures View(Applied(s), full) == Applied(View(s, full)) && Refines(Applied(s), full)
  {
    forall k | 0 <= k < s.commitIndex - s.lastApplied ensures ApplyLogs(s)[k] == ApplyLogs(View(s, full))[k] {
      assert full[s.snapIndex..][s.lastApplied + k - s.snapIndex] == full[s.lastApplied + k];
    }
  }

  lemma SameStart(s: Node, full: seq<Entry>, command: Command)
    requires Refines(s, full) && (s.status == Leader ==> s.term >= 1)
    ensures var t' := Start(View(s, full), command);
            Refines(Start(s, command), t'.logs) && View(Start(s, command), t'.logs) == Unsaved(t')
  {
    LastIndexSound(s);
    LastIndexSound(View(s, full));
    var t' := Start(View(s, full), command);
    assert t'.logs[s.snapIndex..] == Start(s, command).logs;
  }

  /** Taking a snapshot changes nothing that the rest of the cluster can see: what is refined stays, except
      that a snapshot past the applied index counts as applied. */
  lemma CompactInvisible(s: Node, full: seq<Entry>, index: int, data: Image)
    requires Refines(s, full)
    ensures Refines(Compact(s, index, data), full)
    ensures View(Compact(s, index, data), full)
            == View(s, full).(lastApplied := if index <= s.commitIndex then Max(s.lastApplied, index)
                else s.lastApplied)
  {
    if s.snapIndex < index <= s.commitIndex {
      CompactSteady(s, index, data);
      SameTerms(s, full, index);
      assert full[s.snapIndex..][index - s.snapIndex..] == full[index..];
      var t := Compact(s, index, data);
      assert TermAt(View(t, full), index) == TermAt(View(s, full), index);
    }
  }

  /** The commands between the applied index and such a snapshot are never handed over, the others are. */
  lemma CompactSkips(s: Node, index: int, data: Image)
    requires Sound(s) && s.snapIndex < index <= s.commitIndex
    ensures var t, skipped := Compact(s, index, data), Max(index - s.lastApplied, 0);
            && Sound(t) && |ApplyLogs(t)| == |ApplyLogs(s)| - skipped
            && forall k {:trigger ApplyLogs(t)[k]} :: 0 <= k < |ApplyLogs(t)| ==>
                ApplyLogs(t)[k] == ApplyLogs(s)[skipped + k]
  {
    CompactSteady(s, index, data);
  }
}
