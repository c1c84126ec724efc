/** The beginning of a clean run of the whole system with three nodes: node 0 wins term 1 with the vote of
    node 1 and commits one command with it, while its first message to node 2 is late. */
module ThreeNodes {
  import opened KvTypes
  import opened RaftNode
  import opened Cluster
  import opened LogPaths
  import opened StaleTail
  import opened StateMachineSafety
  import opened ApplyPipeline
  import opened Replicas

  // ------------------------------------------------------------ reachability

  ghost predicate ReachClean(n: nat, c: State) {
    exists run: seq<State> :: IsCleanRun(n, run) && run[|run| - 1] == c
  }

  lemma CleanStructured(n: nat, c: State)
    requires ReachClean(n, c)
    ensures Structured(c) && |c.nodes| == n
  {
    var run: seq<State> :| IsCleanRun(n, run) && run[|run| - 1] == c;
    CleanIsRun(n, run);
    RunStructured(n, run, |run| - 1);
  }

  lemma CleanLonger(n: nat, run: seq<State>, d: State)
    requires IsCleanRun(n, run) && CleanStep(run[|run| - 1], d)
    ensures IsCleanRun(n, run + [d])
  {
    var longer := run + [d];
    forall t | 0 <= t < |longer| - 1 ensures CleanStep(longer[t], longer[t + 1]) {
      if t < |run| - 1 { assert CleanStep(run[t], run[t + 1]); }
    }
  }

  lemma ThenClean(n: nat, c: State, a: Action) returns (d: State)
    requires ReachClean(n, c) && Enabled(c, a) && Structured(c) && Clean(c, a)
    ensures d == Step(c, a) && ReachClean(n, d) && Structured(d) && |d.nodes| == n
  {
    var run: seq<State> :| IsCleanRun(n, run) && run[|run| - 1] == c;
    d := Step(c, a);
    assert CleanStep(c, d);
    CleanLonger(n, run, d);
    assert (run + [d])[|run + [d]| - 1] == d;
    CleanStructured(n, d);
  }

  ghost predicate ReachSystem(n: nat, s: System) {
    exists run: seq<System> :: IsCleanSystemRun(n, run) && run[|run| - 1] == s
  }

  lemma SystemStructured(n: nat, s: System)
    requires ReachSystem(n, s)
    ensures Structured(s.cluster) && |s.cluster.nodes| == |s.pipes| == n
  {
    var run: seq<System> :| IsCleanSystemRun(n, run) && run[|run| - 1] == s;
    CleanSystemIsRun(n, run);
    RunInv(n, run, |run| - 1);
  }

  lemma ReachSystemInit(n: nat)
    requires n >= 1
    ensures ReachSystem(n, InitSystem(n)) && Structured(Init(n))
  {
    assert IsCleanSystemRun(n, [InitSystem(n)]);
    InitStructured(n);
  }

  lemma SystemLonger(n: nat, run: seq<System>, s: System)
    requires IsCleanSystemRun(n, run) && IsCleanTurn(run[|run| - 1], s)
    ensures IsCleanSystemRun(n, run + [s])
  {
    var longer := run + [s];
    forall t | 0 <= t < |longer| - 1 ensures IsCleanTurn(longer[t], longer[t + 1]) {
      if t < |run| - 1 { assert IsCleanTurn(run[t], run[t + 1]); }
    }
  }

  predicate CleanTurn(s: System, turn: Turn)
    requires Structured(s.cluster) && (turn.Net? ==> Enabled(s.cluster, turn.action))
  {
    turn.Net? ==> Clean(s.cluster, turn.action)
  }

  lemma Turns(n: nat, s: System, turn: Turn) returns (t: System)
    requires ReachSystem(n, s) && Structured(s.cluster) && |s.pipes| == |s.cluster.nodes|
    requires CanTurn(s, turn) && CleanTurn(s, turn)
    ensures t == Next(s, turn) && ReachSystem(n, t)
    ensures Structured(t.cluster) && |t.cluster.nodes| == |t.pipes| == n
  {
    var run: seq<System> :| IsCleanSystemRun(n, run) && run[|run| - 1] == s;
    t := Next(s, turn);
    assert IsCleanTurn(s, t);
    SystemLonger(n, run, t);
    assert (run + [t])[|run + [t]| - 1] == t;
    SystemStructured(n, t);
  }

  /** The cluster of a clean system run goes through a clean run: what holds for clean runs of the cluster
      holds for the system. */
  lemma {:induction false} ClusterOf(n: nat, run: seq<System>, t: nat)
    requires IsCleanSystemRun(n, run) && t < |run|
    ensures ReachClean(n, run[t].cluster)
  {
    if t == 0 {
      assert IsCleanRun(n, [Init(n)]);
    } else {
      ClusterOf(n, run, t - 1);
      assert IsCleanTurn(run[t - 1], run[t - 1 + 1]);
      ClusterTurn(n, run[t - 1], run[t]);
    }
  }

  lemma ClusterTurn(n: nat, s: System, t: System)
    requires ReachClean(n, s.cluster) && IsCleanTurn(s, t)
    ensures ReachClean(n, t.cluster)
  {
    var turn :| CanTurn(s, turn) && (turn.Net? ==> Clean(s.cluster, turn.action)) && t == Next(s, turn);
    if turn.Net? { var d := ThenClean(n, s.cluster, turn.action); }
  }

  lemma ReachedCluster(n: nat, s: System)
    requires ReachSystem(n, s)
    ensures ReachClean(n, s.cluster)
  {
    var run: seq<System> :| IsCleanSystemRun(n, run) && run[|run| - 1] == s;
    ClusterOf(n, run, |run| - 1);
  }

  // ----------------------------------------------------------------- the run

  /** No server has anything to do yet. */
  ghost predicate Quiet(s: System) {
    && ReachSystem(3, s) && Structured(s.cluster) && |s.cluster.nodes| == 3
    && s.pipes == [EMPTY_PIPE, EMPTY_PIPE, EMPTY_PIPE]
  }

  /** A node of three that never took a snapshot. */
  predicate OfThree(s: Node, me: nat, term: int, votedFor: int, status: Status, logs: seq<Entry>, commitIndex: int) {
    && s.me == me && s.peers == 3 && s.term == term && s.votedFor == votedFor && s.status == status
    && s.logs == logs && s.commitIndex == commitIndex && |s.nextIndex| == |s.matchIndex| == 3
    && s.snapIndex == 0 && s.snapTerm == 0 && s.lastApplied == 0
  }

  lemma ThreeAsked() returns (s: System)
    ensures Quiet(s) && var c := s.cluster;
            && c.beats == [] && |c.elections| == 1 && OfThree(c.nodes[0], 0, 1, 0, Candidate, [], 0)
            && OfThree(c.nodes[1], 1, 0, NOBODY, Follower, [], 0)
            && OfThree(c.nodes[2], 2, 0, NOBODY, Follower, [], 0)
            && c.elections[0] == NewElection(c.nodes[0], 3)
  {
    ReachSystemInit(3);
    assert InitSystem(3).pipes == [EMPTY_PIPE, EMPTY_PIPE, EMPTY_PIPE];
    s := Turns(3, InitSystem(3), Net(DoElection(0)));
  }

  lemma ThreeVoted() returns (s: System)
    ensures Quiet(s) && var c := s.cluster;
            && c.beats == [] && |c.elections| == 1 && OfThree(c.nodes[0], 0, 1, 0, Candidate, [], 0)
            && OfThree(c.nodes[1], 1, 1, 0, Follower, [], 0)
            && OfThree(c.nodes[2], 2, 0, NOBODY, Follower, [], 0) && c.elections[0].candidate == 0
            && c.elections[0].votedNum == 1 && |c.elections[0].calls| == 3
            && c.elections[0].calls[1] == VoteReplied(RequestVoteReply(1, true, NORMAL))
  {
    s := ThreeAsked();
    s := Turns(3, s, Net(AnswerVote(0, 1)));
  }

  lemma ThreeLed() returns (s: System)
    ensures Quiet(s) && var c := s.cluster;
            && c.beats == [] && OfThree(c.nodes[0], 0, 1, 0, Leader, [], 0)
            && OfThree(c.nodes[1], 1, 1, 0, Follower, [], 0)
            && OfThree(c.nodes[2], 2, 0, NOBODY, Follower, [], 0) && c.nodes[0].nextIndex == [1, 1, 1]
            && c.nodes[0].matchIndex == [0, 0, 0]
  {
    s := ThreeVoted();
    s := Turns(3, s, Net(HearVote(0, 1)));
  }

  lemma SubmitTurn(s: System, i: nat, command: Command) returns (t: System)
    requires Quiet(s) && i < 3 && s.cluster.nodes[i].status == Leader
    ensures Quiet(t) && t.cluster.nodes == s.cluster.nodes[i := Start(s.cluster.nodes[i], command)]
    ensures t.cluster.beats == s.cluster.beats
  {
    t := Turns(3, s, Net(Submit(i, command)));
  }

  lemma ThreeStarted() returns (s: System)
    ensures Quiet(s) && var c := s.cluster;
            && c.beats == [] && OfThree(c.nodes[0], 0, 1, 0, Leader, [A], 0)
            && OfThree(c.nodes[1], 1, 1, 0, Follower, [], 0)
            && OfThree(c.nodes[2], 2, 0, NOBODY, Follower, [], 0) && c.nodes[0].nextIndex == [1, 1, 1]
            && c.nodes[0].matchIndex == [0, 0, 0]
  {
    s := ThreeLed();
    s := SubmitTurn(s, 0, Write("a"));
  }

  /** The message that will be late. */
  const LATE := AppendEntriesArgs(1, 0, 0, 0, [A], 0)

  /** The message to node 2 in round b has not been answered. */
  predicate Awaits(c: State, b: nat, args: AppendEntriesArgs) {
    b < |c.beats| && |c.beats[b].calls| == 3 && c.beats[b].calls[2] == AppendPending(args)
  }

  lemma RoundCall(s: Node, k: nat, args: AppendEntriesArgs)
    requires Sound(s) && CanBeat(s) && k < s.peers && k != s.me && s.nextIndex[k] == s.snapIndex + 1
    requires args == AppendEntriesArgs(s.term, s.me, s.snapIndex, s.snapTerm, s.logs, s.commitIndex)
    ensures k < |NewBeat(s).calls| && NewBeat(s).calls[k] == AppendPending(args)
  {
    assert NewBeat(s).calls[k] == CallFor(DispatchTo(s, k));
    assert s.logs[0..] == s.logs;
  }

  lemma FirstRound() returns (s: System)
    ensures Quiet(s) && var c := s.cluster;
            && |c.beats| == 1 && Awaits(c, 0, LATE) && OfThree(c.nodes[0], 0, 1, 0, Leader, [A], 0)
            && OfThree(c.nodes[1], 1, 1, 0, Follower, [], 0)
            && OfThree(c.nodes[2], 2, 0, NOBODY, Follower, [], 0) && c.nodes[0].nextIndex == [1, 1, 1]
            && c.nodes[0].matchIndex == [0, 0, 0] && c.beats[0].leader == 0 && c.beats[0].appendNums == 1
            && c.beats[0].calls[1] == AppendPending(LATE)
  {
    s := ThreeStarted();
    assert GoodNode(s.cluster.nodes, 0);
    RoundCall(s.cluster.nodes[0], 1, LATE);
    RoundCall(s.cluster.nodes[0], 2, LATE);
    s := Turns(3, s, Net(DoHeartBeat(0)));
  }

  lemma TakesOne(s: Node, me: nat, term: int, votedFor: int, a: AppendEntriesArgs)
    requires OfThree(s, me, term, votedFor, Follower, [], 0) && me < 3 && 0 <= term <= 1
    requires a == AppendEntriesArgs(1, 0, 0, 0, [A], a.leaderCommit) && 0 <= a.leaderCommit <= 1
    ensures Sound(s) && Contiguous(a) && CleanAppend(s, a)
    ensures OfThree(HandleAppend(s, a).node, me, 1, if term == 1 then votedFor
        else NOBODY, Follower, [A], a.leaderCommit)
    ensures HandleAppend(s, a).reply == Success(1)
  {}

  lemma FirstAnswered() returns (s: System)
    ensures Quiet(s) && var c := s.cluster;
            && |c.beats| == 1 && Awaits(c, 0, LATE) && OfThree(c.nodes[0], 0, 1, 0, Leader, [A], 0)
            && OfThree(c.nodes[2], 2, 0, NOBODY, Follower, [], 0) && c.nodes[0].nextIndex == [1, 1, 1]
            && c.nodes[0].matchIndex == [0, 0, 0] && c.beats[0].leader == 0 && c.beats[0].appendNums == 1
            && c.beats[0].calls[1] == AppendReplied(LATE, Success(1))
  {
    s := FirstRound();
    TakesOne(s.cluster.nodes[1], 1, 1, 0, LATE);
    s := Turns(3, s, Net(AnswerAppend(0, 1)));
  }

  lemma HearsOne(s: Node)
    requires OfThree(s, 0, 1, 0, Leader, [A], 0) && s.nextIndex == [1, 1, 1] && s.matchIndex == [0, 0, 0]
    ensures var t := HandleAppendReply(s, 1, LATE, Success(1), 1).node;
            OfThree(t, 0, 1, 0, Leader, [A], 1) && t.nextIndex == [1, 2, 1]
  {}

  lemma FirstCommitted() returns (s: System)
    ensures Quiet(s) && var c := s.cluster;
            && |c.beats| == 1 && Awaits(c, 0, LATE) && OfThree(c.nodes[0], 0, 1, 0, Leader, [A], 1)
            && OfThree(c.nodes[2], 2, 0, NOBODY, Follower, [], 0) && c.nodes[0].nextIndex == [1, 2, 1]
  {
    s := FirstAnswered();
    HearsOne(s.cluster.nodes[0]);
    s := Turns(3, s, Net(HearAppend(0, 1)));
  }
}
