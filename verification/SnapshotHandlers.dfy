/** What the sections that make and install snapshots promise, in terms of the fields of the node. */
module SnapshotHandlers {
  import opened KvTypes
  import opened RaftNode
  import opened VoteHandlers
  import opened AppendHandlers

  /** The node's log is what the other one has behind the index. */
  predicate KeepsBehind(s: Node, t: Node, index: int)
    requires s.snapIndex <= index
  {
    && |t.logs| == (if s.snapIndex + |s.logs| > index then s.snapIndex + |s.logs| - index else 0)
    && forall k :: 0 <= k < |t.logs| ==> t.logs[k] == s.logs[index - s.snapIndex + k]
  }

  /** The snapshot of the node, and the indices that may not be below it. */
  predicate StandsAt(s: Node, t: Node, index: int, term: int, data: Image) {
    && t.snapIndex == index && t.snapTerm == term && t.snapshot == data
    && t.commitIndex == (if s.commitIndex > index then s.commitIndex else index)
    && t.lastApplied == (if s.lastApplied > index then s.lastApplied else index)
  }

  /** InstallSnapshot: an old leader is refused with the node's term; any other makes a follower of its term; the
      snapshot is taken exactly when it is newer than the node's, pushed then, and everything saved. */
  lemma InstallAnswered(s: Node, a: InstallSnapshotArgs)
    requires Sound(s) && SaneSnapshot(a)
    ensures var out := HandleInstall(s, a);
            a.term < s.term ==> out.node == s && out.reply.term == s.term && out.pushed == []
    ensures var out := HandleInstall(s, a); var t := out.node;
            a.term >= s.term ==>
              && t.term == a.term && t.status == Follower
              && t.votedFor == (if a.term > s.term then -1 else s.votedFor)
              && t.me == s.me && t.peers == s.peers && t.nextIndex == s.nextIndex && t.matchIndex == s.matchIndex
    ensures var out := HandleInstall(s, a); var t := out.node;
            a.term >= s.term && a.lastIndex <= s.snapIndex ==>
              && out.reply.term == 0 && out.pushed == [] && SameButVote(s, t)
              && (if a.term > s.term then Durable(t) else t.saved == s.saved)
    ensures var out := HandleInstall(s, a); var t := out.node;
            a.term >= s.term && a.lastIndex > s.snapIndex ==>
              && out.reply.term == a.term && out.pushed == [SnapshotMsg(a.data, a.lastTerm, a.lastIndex)]
              && KeepsBehind(s, t, a.lastIndex) && StandsAt(s, t, a.lastIndex, a.lastTerm, a.data) && Durable(t)
  {}

  /** The reply to a snapshot: a node that still leads the message's term goes on right behind the snapshot, or
      steps down to a higher term, saved. */
  lemma InstallHeard(s: Node, server: nat, a: InstallSnapshotArgs, reply: InstallSnapshotReply)
    requires Sound(s) && server < s.peers
    ensures s.status != Leader || s.term != a.term ==> HandleInstallReply(s, server, a, reply) == s
    ensures var t := HandleInstallReply(s, server, a, reply);
            s.status == Leader && s.term == a.term && reply.term > s.term ==>
              t.term == reply.term && t.status == Follower && t.votedFor == -1 && SameButVote(s, t) && Durable(t)
    ensures var t := HandleInstallReply(s, server, a, reply);
            s.status == Leader && s.term == a.term && reply.term <= s.term ==>
              && t == s.(nextIndex := t.nextIndex, matchIndex := t.matchIndex) && SameButPeer(s, t, server)
              && t.matchIndex[server] == a.lastIndex && t.nextIndex[server] == a.lastIndex + 1
  {}

  /** What leaderSendSnapShot sends. */
  lemma SnapshotSent(s: Node)
    ensures var a := BuildSnapshot(s);
            && a.term == s.term && a.leaderId == s.me
            && a.lastIndex == s.snapIndex && a.lastTerm == s.snapTerm && a.data == s.snapshot
  {}

  /** A leader whose term is over learns so from the refusal of its snapshot. */
  lemma StaleSnapshotRefused(l: Node, f: Node, server: nat)
    requires Sound(l) && Sound(f) && server < l.peers && l.status == Leader && l.term < f.term
    ensures SaneSnapshot(BuildSnapshot(l))
    ensures var out := HandleInstall(f, BuildSnapshot(l));
            var t := HandleInstallReply(l, server, BuildSnapshot(l), out.reply);
            && out.node == f && out.pushed == []
            && t.term == f.term && t.status == Follower && t.votedFor == -1 && Durable(t)
  {
    var a := BuildSnapshot(l);
    InstallAnswered(f, a);
    InstallHeard(l, server, a, HandleInstall(f, a).reply);
  }

  /** Snapshot: taken exactly between the node's snapshot and its commit index, with the term of the entry at the
      index; the entries behind it stay, and everything is saved. */
  lemma Compacted(s: Node, index: int, data: Image)
    requires Sound(s)
    ensures !(s.snapIndex < index <= s.commitIndex) ==> Compact(s, index, data) == s
    ensures var t := Compact(s, index, data);
            s.snapIndex < index <= s.commitIndex ==>
              && KeepsBehind(s, t, index) && StandsAt(s, t, index, s.logs[index - s.snapIndex - 1].term, data)
              && Durable(t)
              && t == s.(logs := t.logs, snapIndex := t.snapIndex, snapTerm := t.snapTerm, snapshot := t.snapshot,
                         commitIndex := t.commitIndex, lastApplied := t.lastApplied, saved := t.saved)
  {}

  /** A node starts with nothing. */
  lemma Started(me: nat, peers: nat)
    requires me < peers
    ensures var s := InitNode(me, peers);
            && Sound(s) && Durable(s) && s.me == me && s.peers == peers && s.status == Follower
            && s.term == 0 && s.votedFor == -1 && s.logs == [] && s.snapshot == NoImage
            && s.commitIndex == s.lastApplied == s.snapIndex == s.snapTerm == 0
            && forall i :: 0 <= i < peers ==> s.nextIndex[i] == s.matchIndex[i] == 0
  {}
}
