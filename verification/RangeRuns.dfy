/** Two runs in which raft.cc reads m_logs out of range: a heartbeat after a stale tail, and, in a clean
    run, an AppendEntries whose previous index is below the follower's snapshot. */
module RangeRuns {
  import opened KvTypes
  import opened RaftNode
  import opened Cluster
  import opened LogReads
  import opened StaleTail
  import opened ThreeNodes

  // ------------------------------------------------------------- the heartbeat

  const X := Entry(3, 1, Write("x"))
  const E := Entry(2, 2, Write("e"))

  lemma ThreeCommands() returns (d: State)
    ensures Reach(5, d) && |d.nodes| == 5
    ensures Is(d.nodes[0], 0, 1, 0, Leader, [A, B, X], 0, [1, 1, 1, 1, 1]) && d.nodes[0].matchIndex == [0, 0, 0, 0, 0]
    ensures Is(d.nodes[1], 1, 1, 0, Follower, [], 0, [0, 0, 0, 0, 0])
    ensures Is(d.nodes[2], 2, 1, 0, Follower, [], 0, [0, 0, 0, 0, 0])
    ensures Untouched(d.nodes[3], 3) && Untouched(d.nodes[4], 4)
  {
    d := FirstCommands();
    d := Submits(d, 0, Write("x"));
  }

  lemma CopiesThree(s: Node, a: AppendEntriesArgs)
    requires Is(s, 1, 1, 0, Follower, [], 0, [0, 0, 0, 0, 0]) && a == AppendEntriesArgs(1, 0, 0, 0, [A, B, X], 0)
    ensures Sound(s) && Contiguous(a)
    ensures Is(HandleAppend(s, a).node, 1, 1, 0, Follower, [A, B, X], 0, [0, 0, 0, 0, 0])
    ensures HandleAppend(s, a).reply == Success(1)
  {}

  lemma HearsThree(s: Node, a: AppendEntriesArgs)
    requires Is(s, 0, 1, 0, Leader, [A, B, X], 0, [1, 1, 1, 1, 1]) && s.matchIndex == [0, 0, 0, 0, 0]
    requires a == AppendEntriesArgs(1, 0, 0, 0, [A, B, X], 0)
    ensures Is(HandleAppendReply(s, 1, a, Success(1), 1).node, 0, 1, 0, Leader, [A, B, X], 0, [1, 4, 1, 1, 1])
  {}

  lemma BuildsThree(s: Node) returns (a: AppendEntriesArgs)
    requires Is(s, 0, 1, 0, Leader, [A, B, X], 0, [1, 1, 1, 1, 1])
    ensures Sound(s) && CanBeat(s) && a == AppendEntriesArgs(1, 0, 0, 0, [A, B, X], 0) == BuildAppend(s, 1)
  {
    a := BuildAppend(s, 1);
  }

  /** Node 0 leads term 1 and replicates three entries to node 1 only. */
  lemma LongFirstLeader() returns (d: State)
    ensures Reach(5, d) && |d.nodes| == 5
    ensures Is(d.nodes[0], 0, 1, 0, Leader, [A, B, X], 0, [1, 4, 1, 1, 1])
    ensures Is(d.nodes[1], 1, 1, 0, Follower, [A, B, X], 0, [0, 0, 0, 0, 0])
    ensures Is(d.nodes[2], 2, 1, 0, Follower, [], 0, [0, 0, 0, 0, 0])
    ensures Untouched(d.nodes[3], 3) && Untouched(d.nodes[4], 4)
  {
    var c := ThreeCommands();
    var a := BuildsThree(c.nodes[0]);
    CopiesThree(c.nodes[1], a);
    HearsThree(c.nodes[0], a);
    d := Exchanges(c, 0, 1);
  }

  /** What nodes 0 and 1 are while node 2 leads term 2. */
  predicate FirstTwo(c: State) {
    && |c.nodes| == 5
    && Is(c.nodes[0], 0, 1, 0, Leader, [A, B, X], 0, [1, 4, 1, 1, 1])
    && Is(c.nodes[1], 1, 1, 0, Follower, [A, B, X], 0, [0, 0, 0, 0, 0])
  }

  lemma NextLeader() returns (d: State)
    ensures Reach(5, d) && FirstTwo(d)
    ensures Is(d.nodes[2], 2, 2, 2, Leader, [C], 0, [1, 1, 1, 1, 1]) && d.nodes[2].matchIndex == [0, 0, 0, 0, 0]
    ensures Is(d.nodes[3], 3, 2, 2, Follower, [], 0, [0, 0, 0, 0, 0])
    ensures Is(d.nodes[4], 4, 2, 2, Follower, [], 0, [0, 0, 0, 0, 0])
  {
    d := LongFirstLeader();
    d := Wins(d, 2, 3, 4);
    d := Submits(d, 2, Write("c"));
  }

  lemma FourthTakes(s: Node, a: AppendEntriesArgs)
    requires Is(s, 4, 2, 2, Follower, [], 0, [0, 0, 0, 0, 0]) && a == AppendEntriesArgs(2, 2, 0, 0, [C], 0)
    ensures Sound(s) && Contiguous(a)
    ensures Is(HandleAppend(s, a).node, 4, 2, 2, Follower, [C], 0, [0, 0, 0, 0, 0])
    ensures HandleAppend(s, a).reply == Success(2)
  {}

  lemma HearsFourth(s: Node, a: AppendEntriesArgs)
    requires Is(s, 2, 2, 2, Leader, [C], 0, [1, 1, 1, 1, 1]) && s.matchIndex == [0, 0, 0, 0, 0]
    requires a == AppendEntriesArgs(2, 2, 0, 0, [C], 0)
    ensures var t := HandleAppendReply(s, 4, a, Success(2), 1).node;
            Is(t, 2, 2, 2, Leader, [C], 0, [1, 1, 1, 1, 2]) && t.matchIndex == [0, 0, 0, 0, 1]
  {}

  lemma BuildsOne(s: Node) returns (a: AppendEntriesArgs)
    requires Is(s, 2, 2, 2, Leader, [C], 0, [1, 1, 1, 1, 1])
    ensures Sound(s) && CanBeat(s) && a == AppendEntriesArgs(2, 2, 0, 0, [C], 0) == BuildAppend(s, 4)
  {
    a := BuildAppend(s, 4);
  }

  /** Node 4 gets the first entry of term 2. */
  lemma FourthHasOne() returns (d: State)
    ensures Reach(5, d) && FirstTwo(d)
    ensures Is(d.nodes[2], 2, 2, 2, Leader, [C], 0, [1, 1, 1, 1, 2]) && d.nodes[2].matchIndex == [0, 0, 0, 0, 1]
    ensures Is(d.nodes[3], 3, 2, 2, Follower, [], 0, [0, 0, 0, 0, 0])
    ensures Is(d.nodes[4], 4, 2, 2, Follower, [C], 0, [0, 0, 0, 0, 0])
  {
    var c := NextLeader();
    var a := BuildsOne(c.nodes[2]);
    FourthTakes(c.nodes[4], a);
    HearsFourth(c.nodes[2], a);
    d := Exchanges(c, 2, 4);
  }

  lemma SecondHasTwo() returns (d: State)
    ensures Reach(5, d) && FirstTwo(d)
    ensures Is(d.nodes[2], 2, 2, 2, Leader, [C, E], 0, [1, 1, 1, 1, 2]) && d.nodes[2].matchIndex == [0, 0, 0, 0, 1]
    ensures Is(d.nodes[3], 3, 2, 2, Follower, [], 0, [0, 0, 0, 0, 0])
    ensures Is(d.nodes[4], 4, 2, 2, Follower, [C], 0, [0, 0, 0, 0, 0])
  {
    d := FourthHasOne();
    d := Submits(d, 2, Write("e"));
  }

  /** Node 1 keeps its third entry behind the two of term 2. */
  lemma KeepsThird(s: Node, a: AppendEntriesArgs)
    requires Is(s, 1, 1, 0, Follower, [A, B, X], 0, [0, 0, 0, 0, 0]) && a == AppendEntriesArgs(2, 2, 0, 0, [C, E], 0)
    ensures Sound(s) && Contiguous(a)
    ensures Is(HandleAppend(s, a).node, 1, 2, NOBODY, Follower, [C, E, X], 0, [0, 0, 0, 0, 0])
    ensures HandleAppend(s, a).reply == Success(2)
  {
    assert Merged([A, B, X], 0, [C, E]) == [C, E, X];
  }

  lemma ThirdTakes(s: Node, a: AppendEntriesArgs)
    requires Is(s, 3, 2, 2, Follower, [], 0, [0, 0, 0, 0, 0]) && a == AppendEntriesArgs(2, 2, 0, 0, [C, E], 0)
    ensures Sound(s) && Contiguous(a)
    ensures Is(HandleAppend(s, a).node, 3, 2, 2, Follower, [C, E], 0, [0, 0, 0, 0, 0])
    ensures HandleAppend(s, a).reply == Success(2)
  {}

  lemma CommitsTwo(s: Node, a: AppendEntriesArgs)
    requires Is(s, 2, 2, 2, Leader, [C, E], 0, [1, 1, 1, 1, 2]) && s.matchIndex == [0, 0, 0, 0, 1]
    requires a == AppendEntriesArgs(2, 2, 0, 0, [C, E], 0)
    ensures Is(AfterTwo(s, 1, a, 3, a), 2, 2, 2, Leader, [C, E], 2, [1, 3, 1, 3, 2])
  {}

  lemma BothTake(c: State, a: AppendEntriesArgs)
    requires FirstTwo(c) && Is(c.nodes[2], 2, 2, 2, Leader, [C, E], 0, [1, 1, 1, 1, 2])
    requires Is(c.nodes[3], 3, 2, 2, Follower, [], 0, [0, 0, 0, 0, 0])
    requires a == AppendEntriesArgs(2, 2, 0, 0, [C, E], 0)
    ensures BothAccept(c, 2, 1, 3, a, a)
  {
    assert [C, E][0..] == [C, E];
    KeepsThird(c.nodes[1], a);
    ThirdTakes(c.nodes[3], a);
  }

  /** Node 2 commits index 2 on nodes 1, 2 and 3. */
  lemma TwoCommitted() returns (d: State)
    ensures Reach(5, d) && |d.nodes| == 5
    ensures Is(d.nodes[0], 0, 1, 0, Leader, [A, B, X], 0, [1, 4, 1, 1, 1])
    ensures Is(d.nodes[1], 1, 2, NOBODY, Follower, [C, E, X], 0, [0, 0, 0, 0, 0])
    ensures Is(d.nodes[2], 2, 2, 2, Leader, [C, E], 2, [1, 3, 1, 3, 2])
    ensures Is(d.nodes[3], 3, 2, 2, Follower, [C, E], 0, [0, 0, 0, 0, 0])
    ensures Is(d.nodes[4], 4, 2, 2, Follower, [C], 0, [0, 0, 0, 0, 0])
  {
    var c := SecondHasTwo();
    var a := AppendEntriesArgs(2, 2, 0, 0, [C, E], 0);
    BothTake(c, a);
    KeepsThird(c.nodes[1], a);
    ThirdTakes(c.nodes[3], a);
    CommitsTwo(c.nodes[2], a);
    d := ExchangesTwo(c, 2, 1, 3, a, a);
  }

  lemma ThirdLearns(s: Node, a: AppendEntriesArgs)
    requires Is(s, 3, 2, 2, Follower, [C, E], 0, [0, 0, 0, 0, 0]) && a == AppendEntriesArgs(2, 2, 2, 2, [], 2)
    ensures Sound(s) && Contiguous(a)
    ensures Is(HandleAppend(s, a).node, 3, 2, 2, Follower, [C, E], 2, [0, 0, 0, 0, 0])
  {
    assert Merged([C, E], 2, []) == [C, E];
  }

  lemma LearnMessage(s: Node) returns (a: AppendEntriesArgs)
    requires Is(s, 2, 2, 2, Leader, [C, E], 2, [1, 3, 1, 3, 2])
    ensures Sound(s) && CanBeat(s) && a == AppendEntriesArgs(2, 2, 2, 2, [], 2) == BuildAppend(s, 3)
  {
    a := BuildAppend(s, 3);
  }

  /** Node 3 learns of the commit. */
  lemma ThirdCommits() returns (d: State)
    ensures Reach(5, d) && |d.nodes| == 5
    ensures Is(d.nodes[0], 0, 1, 0, Leader, [A, B, X], 0, [1, 4, 1, 1, 1])
    ensures Is(d.nodes[1], 1, 2, NOBODY, Follower, [C, E, X], 0, [0, 0, 0, 0, 0])
    ensures Is(d.nodes[3], 3, 2, 2, Follower, [C, E], 2, [0, 0, 0, 0, 0])
    ensures Is(d.nodes[4], 4, 2, 2, Follower, [C], 0, [0, 0, 0, 0, 0])
  {
    var c := TwoCommitted();
    var a := LearnMessage(c.nodes[2]);
    ThirdLearns(c.nodes[3], a);
    d := Exchanges(c, 2, 3);
  }

  lemma Compacts(c: State, i: nat, index: int) returns (d: State)
    requires Reach(5, c) && i < |c.nodes|
    ensures Sound(c.nodes[i]) && Reach(5, d) && d.nodes == c.nodes[i := Compact(c.nodes[i], index, NoImage)]
  {
    ReachStructured(5, c);
    assert GoodNode(c.nodes, i);
    d := Then(5, c, TakeSnapshot(i, index, NoImage));
  }

  /** Node 3 takes a snapshot at index 2. */
  lemma ThirdCompacts() returns (d: State)
    ensures Reach(5, d) && |d.nodes| == 5
    ensures Is(d.nodes[0], 0, 1, 0, Leader, [A, B, X], 0, [1, 4, 1, 1, 1])
    ensures Is(d.nodes[1], 1, 2, NOBODY, Follower, [C, E, X], 0, [0, 0, 0, 0, 0])
    ensures d.nodes[3].snapIndex == 2 && d.nodes[3].term == 2 && Sound(d.nodes[3])
    ensures Is(d.nodes[4], 4, 2, 2, Follower, [C], 0, [0, 0, 0, 0, 0])
  {
    var c := ThirdCommits();
    d := Compacts(c, 3, 2);
    CompactSteady(c.nodes[3], 2, NoImage);
  }

  /** Node 4, whose log ends at index 1, wins term 3. */
  lemma ShortLeader() returns (d: State)
    ensures Reach(5, d) && |d.nodes| == 5
    ensures d.nodes[3].snapIndex == 2 && d.nodes[3].term == 2 && Sound(d.nodes[3])
    ensures Is(d.nodes[4], 4, 3, 4, Leader, [C], 0, [2, 2, 2, 2, 2])
  {
    var c := ThirdCompacts();
    assert CanWin(c, 4, 0, 1);
    d := Wins(c, 4, 0, 1);
  }

  lemma BelowMarker(s: Node, a: AppendEntriesArgs)
    requires Sound(s) && s.snapIndex == 2 && s.term == 2 && a == AppendEntriesArgs(3, 4, 1, 2, [], 0)
    ensures Contiguous(a) && HandleAppend(s, a).reply == AppendEntriesReply(3, false, 3, APP_NORMAL)
  {}

  /** The heartbeat reads out of range: node 3 rejects the message of the leader of term 3 with the index
      after its snapshot, and that is more than one past the end of the leader's log. */
  lemma HeartbeatOutOfRange() returns (d: State)
    ensures Reach(5, d) && |d.nodes| == 5
    ensures d.nodes[4].status == Leader && |d.nodes[4].nextIndex| == 5 && d.nodes[4].nextIndex[3] == 3
    ensures d.nodes[4].logs == [C] && Sound(d.nodes[4])
    ensures !CanBeat(d.nodes[4]) && BeatAsWritten(d.nodes[4], 0) == OutOfRange
  {
    var c := ShortLeader();
    BelowMarker(c.nodes[3], BuildAppend(c.nodes[4], 3));
    d := Exchanges(c, 4, 3);
    ReachStructured(5, d);
    assert GoodNode(d.nodes, 4);
    BeatInRange(d.nodes[4]);
  }

  // ------------------------------------------------------------- AppendEntries

  lemma BeatsClean(c: State, i: nat) returns (d: State)
    requires ReachClean(3, c) && Structured(c) && Enabled(c, DoHeartBeat(i)) && GoodNode(c.nodes, i)
    ensures ReachClean(3, d) && Structured(d) && d.nodes == c.nodes && d.beats == c.beats + [NewBeat(c.nodes[i])]
  {
    d := ThenClean(3, c, DoHeartBeat(i));
  }

  lemma SendsAgain(s: Node)
    requires OfThree(s, 0, 1, 0, Leader, [A], 1) && s.nextIndex == [1, 2, 1]
    ensures Sound(s) && CanBeat(s) && |NewBeat(s).calls| == 3
    ensures NewBeat(s).calls[2] == AppendPending(LATE.(leaderCommit := 1))
  {
    RoundCall(s, 2, LATE.(leaderCommit := 1));
  }

  lemma SecondSent() returns (d: State)
    ensures ReachClean(3, d) && Structured(d) && |d.nodes| == 3 && |d.beats| == 2
    ensures Awaits(d, 0, LATE) && Awaits(d, 1, LATE.(leaderCommit := 1))
    ensures OfThree(d.nodes[2], 2, 0, NOBODY, Follower, [], 0)
  {
    var s := FirstCommitted();
    ReachedCluster(3, s);
    var c := s.cluster;
    SendsAgain(c.nodes[0]);
    d := BeatsClean(c, 0);
  }

  lemma SecondAnswered() returns (d: State)
    ensures ReachClean(3, d) && Structured(d) && |d.nodes| == 3 && Awaits(d, 0, LATE)
    ensures OfThree(d.nodes[2], 2, 1, NOBODY, Follower, [A], 1)
  {
    var c := SecondSent();
    TakesOne(c.nodes[2], 2, 0, NOBODY, LATE.(leaderCommit := 1));
    d := ThenClean(3, c, AnswerAppend(1, 2));
  }

  /** AppendEntries reads out of range, in a clean run of three nodes: node 2 takes a snapshot at index 1,
      and then the first message of the leader of its term arrives, whose previous index is 0. */
  lemma AppendOutOfRange() returns (d: State)
    ensures ReachClean(3, d) && Enabled(d, AnswerAppend(0, 2)) && |d.nodes| == 3
    ensures d.beats[0].calls[2].args == LATE && d.nodes[2].snapIndex == 1 && d.nodes[2].term == 1
    ensures AppendAsWritten(d.nodes[2], d.beats[0].calls[2].args) == OutOfRange
  {
    var c := SecondAnswered();
    assert GoodNode(c.nodes, 2);
    CompactSteady(c.nodes[2], 1, NoImage);
    d := ThenClean(3, c, TakeSnapshot(2, 1, NoImage));
    AppendInRange(d.nodes[2], LATE);
  }
}
