/** What the sections of an election promise, in terms of the fields of the node: whom a node votes for,
    what it answers, and what the candidate makes of the answer. */
module VoteHandlers {
  import opened KvTypes
  import opened RaftNode

  /** The candidate's last entry is of a later term than the voter's, or of the same term and no shorter. */
  predicate NotBehind(s: Node, lastLogIndex: int, lastLogTerm: int) {
    var lastTerm := if |s.logs| == 0 then s.snapTerm else s.logs[|s.logs| - 1].term;
    lastLogTerm > lastTerm || (lastLogTerm == lastTerm && lastLogIndex >= s.snapIndex + |s.logs|)
  }

  /** The record that the persister holds is the one of this node. */
  predicate Durable(s: Node) {
    s.saved == Record(s.term, s.votedFor, s.snapIndex, s.snapTerm, s.logs)
  }

  /** Nothing but the term, the vote, the status and the record differs. */
  predicate SameButVote(s: Node, t: Node) {
    t == s.(term := t.term, votedFor := t.votedFor, status := t.status, saved := t.saved)
  }

  /** RequestVote: the answer carries the larger of the two terms, and is granted exactly to a candidate whose
      term is not behind, whose log is not behind, and who has no rival in its term. */
  lemma VoteAnswered(s: Node, a: RequestVoteArgs)
    requires Sound(s)
    ensures var t, r := HandleRequestVote(s, a).node, HandleRequestVote(s, a).reply;
            && r.term == t.term == (if a.term > s.term then a.term else s.term)
            && (r.voteGranted <==>
                  && a.term >= s.term && NotBehind(s, a.lastLogIndex, a.lastLogTerm)
                  && (a.term > s.term || s.votedFor == -1 || s.votedFor == a.candidateId))
            && r.voteState == (if a.term < s.term then 2 else if r.voteGranted then 3 else 1)
    ensures var t, r := HandleRequestVote(s, a).node, HandleRequestVote(s, a).reply;
            && t.votedFor == (if r.voteGranted then a.candidateId else if a.term > s.term then -1 else s.votedFor)
            && t.status == (if a.term > s.term then Follower else s.status)
            && SameButVote(s, t) && Durable(t)
  {
    LastIndexSound(s);
  }

  /** The counting of a reply: a higher term ends the candidacy, a granted vote of the own term counts, and
      the vote that makes more than half wins. */
  lemma VoteHeard(s: Node, reply: RequestVoteReply, votedNum: int)
    requires Sound(s)
    ensures var out := HandleVoteReply(s, reply, votedNum); var t := out.node;
            && (out.counted <==> reply.term == s.term && reply.voteGranted)
            && (out.won <==> out.counted && 2 * (votedNum + 1) > s.peers)
            && out.votedNum == (if out.won then 0 else if out.counted then votedNum + 1 else votedNum)
            && (!out.won && reply.term <= s.term ==> t == s)
            && (reply.term > s.term ==>
                  t.term == reply.term && t.votedFor == -1 && t.status == Follower && SameButVote(s, t) && Durable(t))
    ensures var out := HandleVoteReply(s, reply, votedNum); var t := out.node;
            out.won ==>
              && t.status == Leader && Durable(t)
              && t == s.(status := t.status, nextIndex := t.nextIndex, matchIndex := t.matchIndex, saved := t.saved)
              && |t.nextIndex| == |t.matchIndex| == s.peers
              && forall i :: 0 <= i < s.peers ==>
                   t.nextIndex[i] == s.snapIndex + |s.logs| + 1 && t.matchIndex[i] == 0
  {
    LastIndexSound(s);
  }

  /** doElection: a node that does not lead starts a new term with its own vote, saves that, and asks with the
      end of its log. */
  lemma ElectionStarted(s: Node)
    requires Sound(s)
    ensures s.status == Leader ==> Elect(s) == s
    ensures s.status != Leader ==>
              var t := Elect(s);
              && t.term == s.term + 1 && t.votedFor == s.me && t.status == Candidate
              && SameButVote(s, t) && Durable(t)
    ensures var a := VoteRequest(s);
            && a.term == s.term && a.candidateId == s.me && a.lastLogIndex == s.snapIndex + |s.logs|
            && a.lastLogTerm == if |s.logs| == 0 then s.snapTerm else s.logs[|s.logs| - 1].term
  {
    LastIndexSound(s);
  }

  /** A whole exchange: whoever is in no later term than the candidate was, and whose log the candidate's is not
      behind, votes for it, saves that, and the candidate counts the vote. */
  lemma FreshVoteCounts(c: Node, v: Node, votedNum: int)
    requires Sound(c) && Sound(v) && c.status != Leader && v.term <= c.term
    requires NotBehind(v, VoteRequest(c).lastLogIndex, VoteRequest(c).lastLogTerm)
    ensures var e := Elect(c); var out := HandleRequestVote(v, VoteRequest(e));
            && out.reply.voteGranted && out.node.term == c.term + 1
            && out.node.votedFor == out.node.saved.votedFor == c.me && out.node.saved.term == c.term + 1
            && HandleVoteReply(e, out.reply, votedNum).counted
  {
    var e := Elect(c);
    ElectionStarted(c);
    VoteAnswered(v, VoteRequest(e));
    VoteHeard(e, HandleRequestVote(v, VoteRequest(e)).reply, votedNum);
  }

  /** An outdated candidate learns the voter's term from the refusal, and is a follower of it, without a vote
      and saved. */
  lemma RefusalTeaches(c: Node, v: Node, votedNum: int)
    requires Sound(c) && Sound(v) && c.term < v.term
    ensures var out := HandleRequestVote(v, VoteRequest(c)); var t := HandleVoteReply(c, out.reply, votedNum).node;
            && !out.reply.voteGranted && out.node.term == v.term && out.node.votedFor == v.votedFor
            && t.term == v.term && t.status == Follower && t.votedFor == -1
            && t.saved.term == v.term && t.saved.votedFor == -1 && t.logs == c.logs
  {
    ElectionStarted(c);
    VoteAnswered(v, VoteRequest(c));
    VoteHeard(c, HandleRequestVote(v, VoteRequest(c)).reply, votedNum);
  }
}
