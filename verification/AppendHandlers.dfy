/** What the sections of replication promise, in terms of the fields of the node. */
module AppendHandlers {
  import opened KvTypes
  import opened RaftNode
  import opened LogReads
  import opened VoteHandlers

  /** The term of the entry at an index of the log, or of the last one of the snapshot. */
  predicate HasTerm(s: Node, index: int, term: int) {
    && s.snapIndex <= index <= s.snapIndex + |s.logs|
    && term == if index == s.snapIndex then s.snapTerm else s.logs[index - s.snapIndex - 1].term
  }

  /** What AppendEntries leaves alone in every case. */
  predicate SameButLog(s: Node, t: Node) {
    t == s.(term := t.term, votedFor := t.votedFor, status := t.status, logs := t.logs,
            commitIndex := t.commitIndex, saved := t.saved)
  }

  /** AppendEntries: a stale message changes nothing and teaches the term; any other makes a saved follower of
      the message's term, and is accepted exactly when the previous entry is there. */
  lemma AppendAnswered(s: Node, a: AppendEntriesArgs)
    requires Sound(s) && Contiguous(a)
    ensures a.term < s.term ==> HandleAppend(s, a).node == s
                                && HandleAppend(s, a).reply == AppendEntriesReply(s.term, false, -100, 1)
    ensures var t, r := HandleAppend(s, a).node, HandleAppend(s, a).reply;
            a.term >= s.term ==>
              && r.term == t.term == a.term && r.appState == 1 && t.status == Follower
              && t.votedFor == (if a.term > s.term then -1 else s.votedFor)
              && SameButLog(s, t) && Durable(t)
              && (r.success <==> HasTerm(s, a.prevLogIndex, a.prevLogTerm))
              && (!r.success ==> t.logs == s.logs && t.commitIndex == s.commitIndex)
  {}

  /** A slot that the message covers keeps its entry if its term agrees and takes the sent one otherwise, and
      no other slot changes. */
  predicate LaidOn(logs: seq<Entry>, more: seq<Entry>, off: int, entries: seq<Entry>) {
    && 0 <= off <= |logs|
    && |more| == (if off + |entries| > |logs| then off + |entries| else |logs|)
    && forall j {:trigger more[j]} :: 0 <= j < |more| ==>
         if j < off || off + |entries| <= j then more[j] == logs[j]
         else more[j] == if j < |logs| && logs[j].term == entries[j - off].term then logs[j] else entries[j - off]
  }

  lemma MergedLays(logs: seq<Entry>, off: nat, entries: seq<Entry>)
    requires off <= |logs|
    ensures LaidOn(logs, Merged(logs, off, entries), off, entries)
  {}

  /** What acceptance does to the log and to the commit index. */
  lemma AppendAccepted(s: Node, a: AppendEntriesArgs)
    requires Sound(s) && Contiguous(a) && HandleAppend(s, a).reply.success
    ensures var t := HandleAppend(s, a).node;
            && HandleAppend(s, a).reply.updateNextIndex == 0
            && LaidOn(s.logs, t.logs, a.prevLogIndex - s.snapIndex, a.entries)
            && t.commitIndex == if a.leaderCommit <= s.commitIndex then s.commitIndex
                                else if a.leaderCommit < s.snapIndex + |t.logs| then a.leaderCommit
                                else s.snapIndex + |t.logs|
  {
    MergedLays(s.logs, a.prevLogIndex - s.snapIndex, a.entries);
  }

  /** The hint of a rejection: behind the log if that is too short, behind the snapshot if the message starts
      below it, and otherwise behind the last entry that is below the commit index or of another term. */
  lemma RejectionHint(s: Node, a: AppendEntriesArgs)
    requires Sound(s) && Contiguous(a) && a.term >= s.term && !HandleAppend(s, a).reply.success
    ensures var hint := HandleAppend(s, a).reply.updateNextIndex;
            && (a.prevLogIndex > s.snapIndex + |s.logs| ==> hint == s.snapIndex + |s.logs| + 1)
            && (a.prevLogIndex < s.snapIndex ==> hint == s.snapIndex + 1)
            && (s.snapIndex <= a.prevLogIndex <= s.snapIndex + |s.logs| ==>
                  && s.snapIndex <= hint <= a.prevLogIndex + 1
                  && (forall k :: hint <= k <= a.prevLogIndex ==>
                        k >= s.commitIndex && TermAt(s, k) == TermAt(s, a.prevLogIndex))
                  && (hint - 1 < s.commitIndex || TermAt(s, hint - 1) != TermAt(s, a.prevLogIndex)))
  {
    if s.snapIndex <= a.prevLogIndex <= s.snapIndex + |s.logs| {
      var f := Follow(s, a.term);
      assert forall k :: s.snapIndex <= k <= s.snapIndex + |s.logs| ==> TermAt(f, k) == TermAt(s, k);
    }
  }

  /** The leader's other peers. */
  predicate SameButPeer(s: Node, t: Node, server: nat)
    requires server < |s.nextIndex| && server < |s.matchIndex|
  {
    && |t.nextIndex| == |s.nextIndex| && |t.matchIndex| == |s.matchIndex|
    && t.nextIndex == s.nextIndex[server := t.nextIndex[server]]
    && t.matchIndex == s.matchIndex[server := t.matchIndex[server]]
  }

  /** The reply is about this leader's term. */
  predicate Concerns(s: Node, reply: AppendEntriesReply) {
    reply.appState != 0 && reply.term == s.term && s.status == Leader
  }

  /** A reply that does not concern the node leaves it alone, or carries a higher term and makes it a follower
      of that term, unsaved. */
  lemma OtherReplyHeard(s: Node, server: nat, a: AppendEntriesArgs, reply: AppendEntriesReply, appendNums: int)
    requires Sound(s) && server < s.peers && !Concerns(s, reply)
    ensures var out := HandleAppendReply(s, server, a, reply, appendNums);
            && out.appendNums == appendNums && !out.counted && !out.majority && !out.committed
            && out.node == if reply.appState != 0 && reply.term > s.term
                           then s.(status := Follower, term := reply.term, votedFor := -1) else s
  {}

  /** A rejection moves the next index of this peer to the hint, unless it says to keep it, and nothing else. */
  lemma RejectionHeard(s: Node, server: nat, a: AppendEntriesArgs, reply: AppendEntriesReply, appendNums: int)
    requires Sound(s) && server < s.peers && Concerns(s, reply) && !reply.success
    ensures var out := HandleAppendReply(s, server, a, reply, appendNums); var t := out.node;
            && out.appendNums == appendNums && !out.counted && !out.majority && !out.committed
            && t == s.(nextIndex := t.nextIndex) && SameButPeer(s, t, server)
            && t.nextIndex[server] == if reply.updateNextIndex == -100 then s.nextIndex[server]
                                      else reply.updateNextIndex
  {}

  /** A success, early or late: the match index is the larger of what it was and of the end of the message, the
      next index follows it, and the commit index rises only with more than half of the nodes and an entry
      of the leader's term. */
  lemma SuccessHeard(s: Node, server: nat, a: AppendEntriesArgs, reply: AppendEntriesReply, appendNums: int)
    requires Sound(s) && server < s.peers && Concerns(s, reply) && reply.success
    ensures var out := HandleAppendReply(s, server, a, reply, appendNums); var t := out.node;
            var end := a.prevLogIndex + |a.entries|;
            && SameButPeer(s, t, server)
            && t.matchIndex[server] >= s.matchIndex[server] && t.matchIndex[server] >= end
            && (t.matchIndex[server] == s.matchIndex[server] || t.matchIndex[server] == end)
            && t.nextIndex[server] == t.matchIndex[server] + 1
            && t == s.(nextIndex := t.nextIndex, matchIndex := t.matchIndex, commitIndex := t.commitIndex)
    ensures var out := HandleAppendReply(s, server, a, reply, appendNums);
            var end := a.prevLogIndex + |a.entries|;
            && out.counted && (out.majority <==> 2 * (appendNums + 1) > s.peers)
            && out.appendNums == (if out.majority then 0 else appendNums + 1)
            && (out.committed <==> out.majority && |a.entries| > 0 && a.entries[|a.entries| - 1].term == s.term)
            && out.node.commitIndex == if out.committed && end > s.commitIndex then end else s.commitIndex
  {}

  /** No reply lowers a match index. */
  lemma MatchNeverFalls(s: Node, server: nat, a: AppendEntriesArgs, reply: AppendEntriesReply, appendNums: int)
    requires Sound(s) && server < s.peers
    ensures var t := HandleAppendReply(s, server, a, reply, appendNums).node;
            |t.matchIndex| == s.peers && forall i :: 0 <= i < s.peers ==> t.matchIndex[i] >= s.matchIndex[i]
  {
    if !Concerns(s, reply) {
      OtherReplyHeard(s, server, a, reply, appendNums);
    } else if reply.success {
      SuccessHeard(s, server, a, reply, appendNums);
    } else {
      RejectionHeard(s, server, a, reply, appendNums);
    }
  }

  /** A leader that is behind learns the term from the rejection of its message and stops leading. */
  lemma StaleLeaderLearns(l: Node, f: Node, server: nat, appendNums: int)
    requires Sound(l) && Sound(f) && server < l.peers && l.term < f.term
    requires l.snapIndex < l.nextIndex[server] <= l.snapIndex + |l.logs| + 1
    ensures Contiguous(BuildAppend(l, server)) && HandleAppend(f, BuildAppend(l, server)).node == f
    ensures var a := BuildAppend(l, server);
            HandleAppendReply(l, server, a, HandleAppend(f, a).reply, appendNums).node
            == l.(status := Follower, term := f.term, votedFor := -1)
  {
    var a := BuildAppend(l, server);
    AppendAnswered(f, a);
    OtherReplyHeard(l, server, a, HandleAppend(f, a).reply, appendNums);
  }

  /** What a heartbeat sends to a peer: nothing to itself, the snapshot to whom it has no entries for any more,
      and otherwise everything behind the previous index, with its term and the commit index. */
  lemma Dispatched(l: Node, server: nat)
    requires Sound(l) && server < l.peers && CanBeatTo(l, server)
    ensures var d := DispatchAsWritten(l, server);
            && d.InRange?
            && (d.value.NoTask? <==> server == l.me)
            && (d.value.SnapshotTask? <==> server != l.me && l.nextIndex[server] <= l.snapIndex)
            && (d.value.AppendTask? ==>
                  var a := d.value.args;
                  && a.term == l.term && a.leaderId == l.me && a.leaderCommit == l.commitIndex
                  && a.prevLogIndex == l.nextIndex[server] - 1 && HasTerm(l, a.prevLogIndex, a.prevLogTerm)
                  && |a.entries| == l.snapIndex + |l.logs| - a.prevLogIndex
                  && forall k :: 0 <= k < |a.entries| ==> a.entries[k] == l.logs[a.prevLogIndex - l.snapIndex + k])
    ensures CanBeat(l) ==> InRange(DispatchTo(l, server)) == DispatchAsWritten(l, server)
  {
    DispatchInRange(l, server);
  }

  /** Start: only a leader takes the command, as the next entry of its term, saved. */
  lemma CommandTaken(s: Node, command: Command)
    requires Sound(s)
    ensures s.status != Leader ==> Start(s, command) == s
    ensures s.status == Leader ==>
              var t := Start(s, command);
              && t.logs == s.logs + [Entry(s.snapIndex + |s.logs| + 1, s.term, command)]
              && t == s.(logs := t.logs, saved := t.saved) && Durable(t)
  {
    LastIndexSound(s);
  }

  /** The applier hands over every command behind the applied index up to the commit index, once. */
  lemma HandedOver(s: Node)
    requires Sound(s)
    ensures var ms := ApplyLogs(s);
            && |ms| == s.commitIndex - s.lastApplied
            && forall k :: 0 <= k < |ms| ==>
                 && ms[k].CommandMsg? && ms[k].index == s.lastApplied + 1 + k
                 && Entry(ms[k].index, s.logs[ms[k].index - s.snapIndex - 1].term, ms[k].command)
                    == s.logs[ms[k].index - s.snapIndex - 1]
    ensures Applied(s).lastApplied == s.commitIndex && Applied(s) == s.(lastApplied := Applied(s).lastApplied)
    ensures ApplyLogs(Applied(s)) == []
  {}
}
