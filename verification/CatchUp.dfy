/** How many rejected AppendEntries it takes a leader to bring a follower up to date. */
module CatchUp {
  import opened RaftNode

  /** A leader and a follower of its term, agreeing on the terms of what the follower has committed; the
      follower's snapshot ends within the leader's log. */
  predicate Paired(l: Node, f: Node, server: nat) {
    && Sound(l) && Sound(f) && l.status == Leader && l.term == f.term && f.snapIndex <= l.snapIndex + |l.logs|
    && server < l.peers && 0 <= l.nextIndex[server] <= l.snapIndex + |l.logs| + 1
    && forall i :: l.snapIndex <= i <= l.snapIndex + |l.logs| && f.snapIndex <= i <= f.commitIndex ==>
         TermAt(l, i) == TermAt(f, i)
  }

  /** The message would start below the follower's snapshot. */
  predicate StartsBelow(l: Node, f: Node, server: nat)
    requires server < |l.nextIndex|
  {
    l.nextIndex[server] - 1 < f.snapIndex
  }

  function Reply(l: Node, f: Node, server: nat): AppendEntriesReply
    requires Paired(l, f, server) && l.nextIndex[server] > l.snapIndex
  {
    HandleAppend(f, BuildAppend(l, server)).reply
  }

  /** The follower after it saw the message, and the leader after it heard the reply. */
  function FollowerAfter(l: Node, f: Node, server: nat): Node
    requires Paired(l, f, server) && l.nextIndex[server] > l.snapIndex
  {
    HandleAppend(f, BuildAppend(l, server)).node
  }

  function LeaderAfter(l: Node, f: Node, server: nat): Node
    requires Paired(l, f, server) && l.nextIndex[server] > l.snapIndex
  {
    HandleAppendReply(l, server, BuildAppend(l, server), Reply(l, f, server), 1).node
  }

  /** What is left to try: a start right behind the snapshot is accepted, and one below it leads there. */
  function Steps(l: Node, f: Node, server: nat): int
    requires server < |l.nextIndex|
  {
    if StartsBelow(l, f, server) then 1
    else if l.nextIndex[server] == f.snapIndex + 1 then 0
    else l.nextIndex[server]
  }

  /** A rejection lowers the leader's next index, or moves it right behind the follower's snapshot, where the
      next message is accepted. It changes nothing else that matters. */
  lemma RejectionProgress(l: Node, f: Node, server: nat)
    requires Paired(l, f, server) && l.nextIndex[server] > l.snapIndex && !Reply(l, f, server).success
    ensures Paired(LeaderAfter(l, f, server), FollowerAfter(l, f, server), server)
    ensures if StartsBelow(l, f, server) then LeaderAfter(l, f, server).nextIndex[server] == f.snapIndex + 1
            else LeaderAfter(l, f, server).nextIndex[server] < l.nextIndex[server]
    ensures 0 <= Steps(LeaderAfter(l, f, server), FollowerAfter(l, f, server), server) < Steps(l, f, server)
    ensures LeaderAfter(l, f, server).snapIndex == l.snapIndex && FollowerAfter(l, f, server).snapIndex == f.snapIndex
    ensures FollowerAfter(l, f, server).logs == f.logs && FollowerAfter(l, f, server).commitIndex == f.commitIndex
    ensures FollowerAfter(l, f, server).snapTerm == f.snapTerm
  {
    var a := BuildAppend(l, server);
    var prev := a.prevLogIndex;
    var g := Follow(f, a.term);
    assert FollowerAfter(l, f, server) == Persist(g);
    assert LeaderAfter(l, f, server) == l.(nextIndex := l.nextIndex[server := Reply(l, f, server).updateNextIndex]);
    if f.snapIndex <= prev <= f.snapIndex + |f.logs| {
      PastCommit(l, f, server);
      HintShape(f, prev);
    }
    PairKept(l, f, server, LeaderAfter(l, f, server), Persist(g));
  }

  /** Within the follower's log a rejection is a mismatch past the commit index. */
  lemma PastCommit(l: Node, f: Node, server: nat)
    requires Paired(l, f, server) && l.nextIndex[server] > l.snapIndex && !Reply(l, f, server).success
    requires f.snapIndex <= l.nextIndex[server] - 1 <= f.snapIndex + |f.logs|
    ensures var prev := l.nextIndex[server] - 1;
            f.commitIndex < prev
            && Reply(l, f, server).updateNextIndex == Backtrack(f, TermAt(f, prev), prev) + 1
  {
    var prev := l.nextIndex[server] - 1;
    BuiltFor(l, f, server);
    MismatchHint(f, BuildAppend(l, server));
    SameBacktrack(f, Follow(f, l.term), TermAt(f, prev), prev);
  }

  lemma BuiltFor(l: Node, f: Node, server: nat)
    requires Paired(l, f, server) && l.nextIndex[server] > l.snapIndex
    ensures var a := BuildAppend(l, server);
            && Contiguous(a) && a.term == f.term && a.prevLogIndex == l.nextIndex[server] - 1
            && a.prevLogTerm == TermAt(l, a.prevLogIndex)
  {}

  /** A rejection by a follower that has the previous index is a mismatch of terms. */
  lemma MismatchHint(f: Node, a: AppendEntriesArgs)
    requires Sound(f) && Contiguous(a) && a.term == f.term && f.snapIndex <= a.prevLogIndex <= f.snapIndex + |f.logs|
    requires !HandleAppend(f, a).reply.success
    ensures var g := Follow(f, a.term);
            && TermAt(f, a.prevLogIndex) != a.prevLogTerm
            && HandleAppend(f, a).reply.updateNextIndex == Backtrack(g, TermAt(f, a.prevLogIndex), a.prevLogIndex) + 1
  {}

  /** The hint skips at least the entry the mismatch was found at, and stops where the term changes
      unless the commit index stops it. */
  lemma HintShape(f: Node, prev: int)
    requires Sound(f) && f.commitIndex < prev <= f.snapIndex + |f.logs|
    ensures var r := Backtrack(f, TermAt(f, prev), prev);
            && f.commitIndex - 1 <= r < prev && (f.snapIndex == 0 && f.snapTerm == 0 ==> 0 <= r)
            && (r > f.commitIndex ==> f.logs[r - f.snapIndex].term != f.logs[r - f.snapIndex - 1].term)
  {
    var r := Backtrack(f, TermAt(f, prev), prev);
    assert TermAt(f, prev) >= 1;
    assert r + 1 <= prev ==> TermAt(f, r + 1) == TermAt(f, prev);
  }

  lemma {:induction false} SameBacktrack(f: Node, g: Node, term: int, idx: int)
    requires Sound(f) && Sound(g) && f.logs == g.logs && f.snapIndex == g.snapIndex && f.snapTerm == g.snapTerm
    requires f.commitIndex == g.commitIndex && f.snapIndex - 1 <= idx <= f.snapIndex + |f.logs|
    ensures Backtrack(f, term, idx) == Backtrack(g, term, idx)
    decreases idx + 1
  {
    if idx >= f.commitIndex && TermAt(f, idx) == term { SameBacktrack(f, g, term, idx - 1); }
  }

  lemma PairKept(l: Node, f: Node, server: nat, l': Node, f': Node)
    requires Paired(l, f, server)
    requires |l'.nextIndex| == |l.nextIndex| && 0 <= l'.nextIndex[server] <= l.snapIndex + |l.logs| + 1
    requires l' == l.(nextIndex := l'.nextIndex)
    requires f' == f.(status := Follower, saved := f'.saved)
    ensures Paired(l', f', server)
  {
    forall i | l'.snapIndex <= i <= l'.snapIndex + |l'.logs| && f'.snapIndex <= i <= f'.commitIndex
      ensures TermAt(l', i) == TermAt(f', i)
    {
      assert TermAt(l, i) == TermAt(f, i);
    }
  }

  /** Rejections until a message is accepted, or until the leader has to send its snapshot. */
  function Rejections(l: Node, f: Node, server: nat): nat
    requires Paired(l, f, server)
    decreases Steps(l, f, server)
  {
    if l.nextIndex[server] <= l.snapIndex || Reply(l, f, server).success then 0
    else
      RejectionProgress(l, f, server);
      1 + Rejections(LeaderAfter(l, f, server), FollowerAfter(l, f, server), server)
  }

  /** The number of maximal stretches of equal terms. */
  function TermRuns(logs: seq<Entry>): nat {
    if logs == [] then 0
    else TermRuns(logs[..|logs| - 1])
         + if |logs| == 1 || logs[|logs| - 1].term != logs[|logs| - 2].term then 1 else 0
  }

  lemma {:induction false} RunsGrow(logs: seq<Entry>, i: nat, j: nat)
    requires i <= j <= |logs|
    ensures TermRuns(logs[..i]) <= TermRuns(logs[..j])
    decreases j
  {
    if i < j {
      assert logs[..j][..j - 1] == logs[..j - 1];
      RunsGrow(logs, i, j - 1);
    }
  }

  /** A change of term after slot i is the start of a run that ends at j or later. */
  lemma RunStarts(logs: seq<Entry>, i: nat, j: nat)
    requires i < j <= |logs| && (i == 0 || logs[i].term != logs[i - 1].term)
    ensures TermRuns(logs[..i]) + 1 <= TermRuns(logs[..j])
  {
    assert logs[..i + 1][..i] == logs[..i];
    RunsGrow(logs, i + 1, j);
  }

  /** One more rejection, and the pair it leaves. */
  lemma OneMore(l: Node, f: Node, server: nat) returns (l': Node, f': Node)
    requires Paired(l, f, server) && l.nextIndex[server] > l.snapIndex && !Reply(l, f, server).success
    ensures Paired(l', f', server) && SameFollower(f, f') && l'.nextIndex[server] == Reply(l, f, server).updateNextIndex
    ensures Rejections(l, f, server) == 1 + Rejections(l', f', server)
    ensures l.nextIndex[server] - 1 > f.snapIndex + |f.logs| ==> l'.nextIndex[server] == f.snapIndex + |f.logs| + 1
    ensures StartsBelow(l, f, server) ==> l'.nextIndex[server] == f.snapIndex + 1
  {
    RejectionProgress(l, f, server);
    l', f' := LeaderAfter(l, f, server), FollowerAfter(l, f, server);
  }

  predicate SameFollower(f: Node, f': Node) {
    f'.logs == f.logs && f'.commitIndex == f.commitIndex && f'.snapIndex == f.snapIndex && f'.snapTerm == f.snapTerm
  }

  lemma NoMore(l: Node, f: Node, server: nat)
    requires Paired(l, f, server) && (l.nextIndex[server] <= l.snapIndex || Reply(l, f, server).success)
    ensures Rejections(l, f, server) == 0
  {}

  /** One more rejection when the hints run into the snapshot. */
  function Extra(f: Node): nat {
    if f.snapIndex == 0 && f.snapTerm == 0 then 0 else 1
  }

  /** The runs in the follower's log up to an index. */
  function RunsUpTo(f: Node, index: int): nat
    requires f.snapIndex <= index <= f.snapIndex + |f.logs|
  {
    TermRuns(f.logs[..index - f.snapIndex])
  }

  lemma SameRuns(f: Node, f': Node, index: int)
    requires SameFollower(f, f') && f.snapIndex <= index <= f.snapIndex + |f.logs|
    ensures RunsUpTo(f', index) == RunsUpTo(f, index)
  {}

  lemma RunsDrop(f: Node, r: int, prev: int)
    requires f.snapIndex <= r < prev <= f.snapIndex + |f.logs|
    requires r == f.snapIndex || f.logs[r - f.snapIndex].term != f.logs[r - f.snapIndex - 1].term
    ensures RunsUpTo(f, r) + 1 <= RunsUpTo(f, prev)
  {
    RunStarts(f.logs, r - f.snapIndex, prev - f.snapIndex);
  }

  lemma {:induction false} WithinLog(l: Node, f: Node, server: nat, next: int)
    requires Paired(l, f, server) && next == l.nextIndex[server]
    requires f.snapIndex + 1 <= next <= f.snapIndex + |f.logs| + 1
    ensures Rejections(l, f, server) <= Extra(f) + RunsUpTo(f, next - 1)
    decreases next
  {
    if next <= l.snapIndex || Reply(l, f, server).success {
      NoMore(l, f, server);
    } else {
      var l', f', next' := OneMoreWithin(l, f, server, next);
      if next' - 1 > f'.commitIndex { WithinLog(l', f', server, next'); } else { AtMostExtra(l', f', server); }
    }
  }

  /** A rejection within the log, and the pair it leaves: fewer runs to go, or the commit index is reached. */
  lemma OneMoreWithin(l: Node, f: Node, server: nat, next: int) returns (l': Node, f': Node, next': int)
    requires Paired(l, f, server) && next == l.nextIndex[server] > l.snapIndex && !Reply(l, f, server).success
    requires f.snapIndex <= next - 1 <= f.snapIndex + |f.logs|
    ensures Paired(l', f', server) && next' == l'.nextIndex[server] < next && Extra(f') == Extra(f)
    ensures Rejections(l, f, server) == 1 + Rejections(l', f', server) && 1 <= RunsUpTo(f, next - 1)
    ensures if next' - 1 > f'.commitIndex then
              f'.snapIndex + 1 <= next' <= f'.snapIndex + |f'.logs| + 1
              && RunsUpTo(f', next' - 1) + 1 <= RunsUpTo(f, next - 1)
            else StartsBelow(l', f', server) && next' > 0 ==> Extra(f) == 1
  {
    next' := RunDropped(l, f, server);
    l', f' := OneMore(l, f, server);
    if next' - 1 > f.commitIndex { SameRuns(f, f', next' - 1); }
  }

  /** At or below the commit index, only a start below the snapshot is rejected, and once. */
  lemma AtMostExtra(l: Node, f: Node, server: nat)
    requires Paired(l, f, server) && l.nextIndex[server] - 1 <= f.commitIndex
    requires StartsBelow(l, f, server) && l.nextIndex[server] > 0 ==> Extra(f) == 1
    ensures Rejections(l, f, server) <= Extra(f)
  {
    if StartsBelow(l, f, server) { BelowOnce(l, f, server); } else { CommittedAccepted(l, f, server); }
  }

  /** A hint within the log skips a run of equal terms, unless the commit index stops it. */
  lemma RunDropped(l: Node, f: Node, server: nat) returns (next: int)
    requires Paired(l, f, server) && l.nextIndex[server] > l.snapIndex && !Reply(l, f, server).success
    requires f.snapIndex <= l.nextIndex[server] - 1 <= f.snapIndex + |f.logs|
    ensures next == Reply(l, f, server).updateNextIndex < l.nextIndex[server]
    ensures next - 1 < f.snapIndex && next > 0 ==> Extra(f) == 1
    ensures 1 <= RunsUpTo(f, l.nextIndex[server] - 1)
    ensures next - 1 > f.commitIndex ==> RunsUpTo(f, next - 1) + 1 <= RunsUpTo(f, l.nextIndex[server] - 1)
  {
    PastCommit(l, f, server);
    var r := HintDropsRun(f, l.nextIndex[server] - 1);
    next := r + 1;
  }

  lemma HintDropsRun(f: Node, prev: int) returns (r: int)
    requires Sound(f) && f.commitIndex < prev <= f.snapIndex + |f.logs|
    ensures r == Backtrack(f, TermAt(f, prev), prev) < prev && 1 <= RunsUpTo(f, prev)
    ensures r < f.snapIndex && r >= 0 ==> Extra(f) == 1
    ensures r > f.commitIndex ==> RunsUpTo(f, r) + 1 <= RunsUpTo(f, prev)
  {
    r := Backtrack(f, TermAt(f, prev), prev);
    HintShape(f, prev);
    RunsDrop(f, f.snapIndex, prev);
    if r > f.commitIndex { RunsDrop(f, r, prev); }
  }

  /** Below the follower's snapshot there is at most one rejection. */
  lemma BelowOnce(l: Node, f: Node, server: nat)
    requires Paired(l, f, server) && StartsBelow(l, f, server)
    ensures Rejections(l, f, server) <= 1
    ensures l.nextIndex[server] <= 0 ==> Rejections(l, f, server) == 0
  {
    if l.nextIndex[server] <= l.snapIndex || Reply(l, f, server).success {
      NoMore(l, f, server);
    } else {
      var l', f' := OneMore(l, f, server);
      CommittedAccepted(l', f', server);
    }
  }

  /** What the follower has committed is accepted at once. */
  lemma CommittedAccepted(l: Node, f: Node, server: nat)
    requires Paired(l, f, server) && f.snapIndex <= l.nextIndex[server] - 1 <= f.commitIndex
    ensures Rejections(l, f, server) == 0
  {
    if l.nextIndex[server] > l.snapIndex && !Reply(l, f, server).success {
      BuiltFor(l, f, server);
      MismatchHint(f, BuildAppend(l, server));
      assert false;
    }
    NoMore(l, f, server);
  }

  lemma AllRuns(f: Node, index: int)
    requires f.snapIndex <= index <= f.snapIndex + |f.logs|
    ensures RunsUpTo(f, index) <= TermRuns(f.logs)
  {
    RunsGrow(f.logs, index - f.snapIndex, |f.logs|);
    assert f.logs[..|f.logs|] == f.logs;
  }

  /** Catch-up is bounded: one rejection for a log that is too short, one for each run of equal terms in
      the follower's log, and one more if the hints can run into a snapshot. */
  lemma CatchUpBound(l: Node, f: Node, server: nat)
    requires Paired(l, f, server)
    ensures Rejections(l, f, server) <= 1 + TermRuns(f.logs) + Extra(f)
  {
    var next := l.nextIndex[server];
    if next <= l.snapIndex || Reply(l, f, server).success {
      NoMore(l, f, server);
    } else if next > f.snapIndex + |f.logs| + 1 {
      TooShort(l, f, server);
    } else if StartsBelow(l, f, server) {
      BelowOnce(l, f, server);
    } else {
      InLog(l, f, server);
    }
  }

  lemma InLog(l: Node, f: Node, server: nat)
    requires Paired(l, f, server) && f.snapIndex + 1 <= l.nextIndex[server] <= f.snapIndex + |f.logs| + 1
    ensures Rejections(l, f, server) <= Extra(f) + TermRuns(f.logs)
  {
    WithinLog(l, f, server, l.nextIndex[server]);
    AllRuns(f, l.nextIndex[server] - 1);
  }

  lemma TooShort(l: Node, f: Node, server: nat)
    requires Paired(l, f, server) && l.nextIndex[server] > l.snapIndex && !Reply(l, f, server).success
    requires l.nextIndex[server] > f.snapIndex + |f.logs| + 1
    ensures Rejections(l, f, server) <= 1 + TermRuns(f.logs) + Extra(f)
  {
    var l', f' := OneMore(l, f, server);
    InLog(l', f', server);
  }

  /** A new leader can send its first heartbeat, and asks every peer only about the end of its log. */
  lemma NewLeaderAsks(s: Node, server: nat)
    requires Sound(s) && server < s.peers && server != s.me
    ensures var l := BecomeLeader(s);
            && Sound(l) && CanBeat(l) && DispatchTo(l, server).AppendTask?
            && DispatchTo(l, server).args.prevLogIndex == LastIndex(s)
            && DispatchTo(l, server).args.prevLogTerm == LastTerm(s) && DispatchTo(l, server).args.entries == []
  {
    LastIndexSound(s);
  }

  lemma BuiltEnd(l: Node, server: nat)
    requires Sound(l) && server < l.peers && l.snapIndex < l.nextIndex[server] <= l.snapIndex + |l.logs| + 1
    ensures var a := BuildAppend(l, server);
            EndIndex(a) == l.snapIndex + |l.logs| && EndTerm(a) == TermAt(l, l.snapIndex + |l.logs|)
  {}

  lemma BuiltEmpty(l: Node, server: nat)
    requires Sound(l) && server < l.peers && l.nextIndex[server] == l.snapIndex + |l.logs| + 1
    ensures BuildAppend(l, server).entries == []
  {}

  /** After a success the leader has nothing left for this peer. */
  lemma NextIsEmpty(l: Node, server: nat, reply: AppendEntriesReply)
    requires Sound(l) && l.status == Leader && server < l.peers && l.matchIndex[server] <= l.snapIndex + |l.logs|
    requires l.snapIndex < l.nextIndex[server] <= l.snapIndex + |l.logs| + 1
    requires reply.success && reply.term == l.term && reply.appState == APP_NORMAL
    ensures var a := BuildAppend(l, server); var l' := HandleAppendReply(l, server, a, reply, 1).node;
            && Sound(l') && l'.nextIndex[server] == LastIndex(l) + 1 == l'.snapIndex + |l'.logs| + 1
            && LastIndex(l) == EndIndex(a) && BuildAppend(l', server).prevLogTerm == EndTerm(a)
            && BuildAppend(l', server).prevLogIndex == EndIndex(a) && BuildAppend(l', server).entries == []
            && BuildAppend(l', server).term == l.term
  {
    var a := BuildAppend(l, server);
    var l' := HandleAppendReply(l, server, a, reply, 1).node;
    LastIndexSound(l);
    BuiltEnd(l, server);
    AppendReplySteady(l, server, a, reply, 1);
    assert l'.logs == l.logs && l'.snapIndex == l.snapIndex && l'.snapTerm == l.snapTerm && l'.term == l.term;
    BuiltEmpty(l', server);
  }

  lemma TookAll(f: Node, a: AppendEntriesArgs)
    requires Sound(f) && Contiguous(a) && a.term == f.term && HandleAppend(f, a).reply.success
    ensures var t := HandleAppend(f, a).node;
            t.term == f.term && t.snapIndex <= EndIndex(a) <= t.snapIndex + |t.logs|
                && TermAt(t, EndIndex(a)) == EndTerm(a)
  {
    var g := Follow(f, a.term);
    assert HandleAppend(f, a).node == Persist(Accepted(g, a));
    if a.entries != [] {
      assert Accepted(g, a).logs[EndIndex(a) - g.snapIndex - 1].term == a.entries[|a.entries| - 1].term;
    }
  }

  lemma EmptyAccepted(f: Node, a: AppendEntriesArgs)
    requires Sound(f) && a.term == f.term && a.entries == [] && Matches(f, a)
    ensures Contiguous(a) && HandleAppend(f, a).reply.success
  {}

  /** After a success the leader's next message to this peer is an empty one, and is accepted too. */
  lemma StaysCaughtUp(l: Node, f: Node, server: nat)
    requires Paired(l, f, server) && l.nextIndex[server] > l.snapIndex && Reply(l, f, server).success
    requires l.matchIndex[server] <= l.snapIndex + |l.logs|
    ensures var l', f' := LeaderAfter(l, f, server), FollowerAfter(l, f, server);
            && Sound(f') && Sound(l') && l'.nextIndex[server] == LastIndex(l) + 1
            && l'.snapIndex < l'.nextIndex[server] <= l'.snapIndex + |l'.logs| + 1
            && var a := BuildAppend(l', server);
               Contiguous(a) && a.entries == [] && HandleAppend(f', a).reply.success
  {
    var a := BuildAppend(l, server);
    BuiltFor(l, f, server);
    AppendSteady(f, a);
    TookAll(f, a);
    NextIsEmpty(l, server, Reply(l, f, server));
    EmptyAccepted(FollowerAfter(l, f, server), BuildAppend(LeaderAfter(l, f, server), server));
  }
}
