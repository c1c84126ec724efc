/** The stale tail: where AppendEntries differs from the Raft paper, and what that costs. */
module StaleTail {
  import opened KvTypes
  import opened RaftNode
  import opened Cluster

  /** The receiver rule of the paper's figure 2: from the first entry that conflicts with a new one,
      the log is cut, and what is missing is appended. */
  function PaperMerged(logs: seq<Entry>, off: nat, entries: seq<Entry>): seq<Entry>
    requires off <= |logs|
    decreases |entries|
  {
    if entries == [] then logs
    else if off < |logs| && logs[off].term == entries[0].term then PaperMerged(logs, off + 1, entries[1..])
    else logs[..off] + entries
  }

  predicate Conflicts(logs: seq<Entry>, off: nat, entries: seq<Entry>) {
    exists j {:trigger logs[j]} :: off <= j < off + |entries| && j < |logs| && logs[j].term != entries[j - off].term
  }

  /** Entry identity, for the slots that the message covers. */
  predicate SameWhereTermsAgree(logs: seq<Entry>, off: nat, entries: seq<Entry>) {
    forall k :: 0 <= k < |entries| && off + k < |logs| && logs[off + k].term == entries[k].term ==>
      logs[off + k] == entries[k]
  }

  /** How much of the overlaid log the paper keeps. */
  ghost function PaperLength(logs: seq<Entry>, off: nat, entries: seq<Entry>): nat {
    if Conflicts(logs, off, entries) then off + |entries| else Max(|logs|, off + |entries|)
  }

  /** The first entry of the message agrees: the rest is laid over from the next slot on. */
  lemma FirstAgrees(logs: seq<Entry>, off: nat, entries: seq<Entry>)
    requires off < |logs| && entries != [] && logs[off] == entries[0]
    ensures Merged(logs, off + 1, entries[1..]) == Merged(logs, off, entries)
    ensures PaperLength(logs, off + 1, entries[1..]) == PaperLength(logs, off, entries)
  {
    var rest := entries[1..];
    assert forall k :: 0 <= k < |rest| ==> rest[k] == entries[k + 1];
    if k :| 0 <= k < |entries| && off + k < |logs| && logs[off + k].term != entries[k].term {
      assert logs[off + 1 + (k - 1)].term != rest[k - 1].term;
    }
    if k :| 0 <= k < |rest| && off + 1 + k < |logs| && logs[off + 1 + k].term != rest[k].term {
      assert logs[off + (k + 1)].term != entries[k + 1].term;
    }
  }

  lemma {:induction false} PaperIsPrefix(logs: seq<Entry>, off: nat, entries: seq<Entry>)
    requires off <= |logs| && SameWhereTermsAgree(logs, off, entries)
    ensures PaperLength(logs, off, entries) <= |Merged(logs, off, entries)|
    ensures PaperMerged(logs, off, entries) == Merged(logs, off, entries)[..PaperLength(logs, off, entries)]
    decreases |entries|
  {
    if entries == [] {
      assert Merged(logs, off, entries) == logs;
    } else if off < |logs| && logs[off].term == entries[0].term {
      assert logs[off + 0] == entries[0];
      FirstAgrees(logs, off, entries);
      assert forall k :: 0 <= k < |entries[1..]| ==> entries[1..][k] == entries[k + 1];
      PaperIsPrefix(logs, off + 1, entries[1..]);
    } else {
      assert off < |logs| ==> logs[off + 0].term != entries[0].term;
      assert (logs[..off] + entries) == Merged(logs, off, entries)[..off + |entries|];
    }
  }

  /** AppendEntries does what the paper asks for exactly when it is not the case that the message
      conflicts with the log and the log reaches past the message. */
  lemma PaperUnlessStaleTail(logs: seq<Entry>, off: nat, entries: seq<Entry>)
    requires off <= |logs| && SameWhereTermsAgree(logs, off, entries)
    ensures Merged(logs, off, entries) == PaperMerged(logs, off, entries)
            <==> !(Conflicts(logs, off, entries) && |logs| > off + |entries|)
  {
    PaperIsPrefix(logs, off, entries);
    var m := Merged(logs, off, entries);
    assert m[..|m|] == m;
  }

  // ----------------------------------------------------- a run that goes wrong

  ghost predicate Reach(n: nat, c: State) {
    exists run: seq<State> :: IsRun(n, run) && run[|run| - 1] == c
  }

  lemma ReachInit(n: nat)
    requires n >= 1
    ensures Reach(n, Init(n))
  {
    assert IsRun(n, [Init(n)]);
  }

  lemma Longer(n: nat, run: seq<State>, d: State)
    requires IsRun(n, run) && IsStep(run[|run| - 1], d)
    ensures IsRun(n, run + [d])
  {
    var longer := run + [d];
    forall t | 0 <= t < |longer| - 1 ensures IsStep(longer[t], longer[t + 1]) {
      if t < |run| - 1 { assert IsStep(run[t], run[t + 1]); }
    }
  }

  lemma TakesStep(c: State, a: Action)
    requires Structured(c) && Enabled(c, a)
    ensures IsStep(c, Step(c, a)) && Structured(Step(c, a)) && |Step(c, a).nodes| == |c.nodes|
  {
    StructureKept(c, a);
    StepGrows(c, a);
  }

  lemma ReachStructured(n: nat, c: State)
    requires Reach(n, c)
    ensures Structured(c) && |c.nodes| == n
  {
    var run: seq<State> :| IsRun(n, run) && run[|run| - 1] == c;
    RunStructured(n, run, |run| - 1);
  }

  lemma Then(n: nat, c: State, a: Action) returns (d: State)
    requires Reach(n, c) && Enabled(c, a)
    ensures Structured(c) && d == Step(c, a) && Reach(n, d)
  {
    ReachStructured(n, c);
    var run: seq<State> :| IsRun(n, run) && run[|run| - 1] == c;
    d := Step(c, a);
    TakesStep(c, a);
    Longer(n, run, d);
    assert (run + [d])[|run + [d]| - 1] == d;
  }

  lemma Asks(c: State, i: nat) returns (d: State)
    requires Reach(5, c) && i < |c.nodes| && c.nodes[i].status != Leader
    ensures Reach(5, d) && d.nodes == c.nodes[i := Elect(c.nodes[i])]
    ensures d.elections == c.elections + [NewElection(Elect(c.nodes[i]), |c.nodes|)]
  {
    d := Then(5, c, DoElection(i));
  }

  lemma Votes(c: State, e: nat, s: nat) returns (d: State)
    requires Reach(5, c) && Enabled(c, AnswerVote(e, s))
    ensures Reach(5, d)
    ensures var out := HandleRequestVote(c.nodes[s], c.elections[e].args);
            && d.nodes == c.nodes[s := out.node]
            && d.elections == c.elections[e := c.elections[e].(calls := c.elections[e].calls[s := VoteReplied(out.reply)])]
  {
    d := Then(5, c, AnswerVote(e, s));
  }

  lemma Hears(c: State, e: nat, s: nat) returns (d: State)
    requires Reach(5, c) && Enabled(c, HearVote(e, s))
    ensures Reach(5, d)
    ensures var el := c.elections[e]; var i := el.candidate;
            var out := HandleVoteReply(c.nodes[i], el.calls[s].reply, el.votedNum);
            && d.nodes == c.nodes[i := out.node] && |d.elections| == |c.elections|
            && d.elections[e].args == el.args && d.elections[e].candidate == i
                && d.elections[e].votedNum == out.votedNum
            && (forall k :: 0 <= k < |el.calls| && k != s ==>
                  |d.elections[e].calls| == |el.calls| && d.elections[e].calls[k] == el.calls[k])
  {
    d := Then(5, c, HearVote(e, s));
  }

  /** Node i, which is not the leader, can win the votes of u and v in its next term. */
  predicate CanWin(c: State, i: nat, u: nat, v: nat) {
    && |c.nodes| == 5 && i < 5 && u < 5 && v < 5 && i != u && i != v && u != v
    && c.nodes[i].me == i && c.nodes[i].peers == 5 && c.nodes[i].status != Leader
    && c.nodes[u].term <= c.nodes[i].term && c.nodes[v].term <= c.nodes[i].term
    && UpToDate(c.nodes[u], LastIndex(c.nodes[i]), LastTerm(c.nodes[i]))
    && UpToDate(c.nodes[v], LastIndex(c.nodes[i]), LastTerm(c.nodes[i]))
  }

  lemma Grants(s: Node, a: RequestVoteArgs)
    requires s.term < a.term && UpToDate(s, a.lastLogIndex, a.lastLogTerm)
    ensures HandleRequestVote(s, a).reply == RequestVoteReply(a.term, true, NORMAL)
  {}

  /** Node s grants its vote to a candidate whose request is newer. */
  lemma VotesYes(c: State, e: nat, s: nat) returns (d: State)
    requires Reach(5, c) && Enabled(c, AnswerVote(e, s)) && c.nodes[s].term < c.elections[e].args.term
    requires UpToDate(c.nodes[s], c.elections[e].args.lastLogIndex, c.elections[e].args.lastLogTerm)
    ensures Reach(5, d) && d.nodes == c.nodes[s := HandleRequestVote(c.nodes[s], c.elections[e].args).node]
    ensures var yes := VoteReplied(RequestVoteReply(c.elections[e].args.term, true, NORMAL));
            d.elections == c.elections[e := c.elections[e].(calls := c.elections[e].calls[s := yes])]
  {
    Grants(c.nodes[s], c.elections[e].args);
    d := Votes(c, e, s);
  }

  lemma BothVote(c: State, i: nat, u: nat, v: nat) returns (d: State)
    requires Reach(5, c) && CanWin(c, i, u, v)
    ensures Reach(5, d) && |d.nodes| == 5 && |d.elections| == |c.elections| + 1
    ensures forall j :: 0 <= j < 5 && j != i && j != u && j != v ==> d.nodes[j] == c.nodes[j]
    ensures var s := Elect(c.nodes[i]); var el := d.elections[|c.elections|];
            && d.nodes[u] == HandleRequestVote(c.nodes[u], VoteRequest(s)).node
            && d.nodes[v] == HandleRequestVote(c.nodes[v], VoteRequest(s)).node
            && d.nodes[i] == s && el.candidate == i && el.votedNum == 1 && |el.calls| == 5
            && el.calls[u] == el.calls[v] == VoteReplied(RequestVoteReply(s.term, true, NORMAL))
  {
    var e := |c.elections|;
    d := Asks(c, i);
    d := VotesYes(d, e, u);
    d := VotesYes(d, e, v);
  }

  /** Node i wins the election of its next term with the votes of u and v. */
  lemma Wins(c: State, i: nat, u: nat, v: nat) returns (d: State)
    requires Reach(5, c) && CanWin(c, i, u, v)
    ensures Reach(5, d) && |d.nodes| == 5
    ensures forall j :: 0 <= j < 5 && j != i && j != u && j != v ==> d.nodes[j] == c.nodes[j]
    ensures d.nodes[u] == HandleRequestVote(c.nodes[u], VoteRequest(Elect(c.nodes[i]))).node
    ensures d.nodes[v] == HandleRequestVote(c.nodes[v], VoteRequest(Elect(c.nodes[i]))).node
    ensures d.nodes[i] == BecomeLeader(Elect(c.nodes[i]))
  {
    var e := |c.elections|;
    d := BothVote(c, i, u, v);
    d := Hears(d, e, u);
    assert d.nodes[i] == Elect(c.nodes[i]) && d.elections[e].votedNum == 2;
    d := Hears(d, e, v);
  }

  lemma Submits(c: State, i: nat, command: Command) returns (d: State)
    requires Reach(5, c) && i < |c.nodes| && c.nodes[i].status == Leader
    ensures Reach(5, d) && d.nodes == c.nodes[i := Start(c.nodes[i], command)]
  {
    d := Then(5, c, Submit(i, command));
  }

  lemma Beats(c: State, i: nat) returns (d: State)
    requires Reach(5, c) && i < |c.nodes| && c.nodes[i].status == Leader && Sound(c.nodes[i]) && CanBeat(c.nodes[i])
    ensures Reach(5, d) && d.nodes == c.nodes && d.beats == c.beats + [NewBeat(c.nodes[i])]
  {
    d := Then(5, c, DoHeartBeat(i));
  }

  lemma Answers(c: State, b: nat, s: nat) returns (d: State)
    requires Reach(5, c) && Enabled(c, AnswerAppend(b, s))
    ensures Sound(c.nodes[s]) && Contiguous(c.beats[b].calls[s].args) && Reach(5, d)
    ensures var args := c.beats[b].calls[s].args; var out := HandleAppend(c.nodes[s], args);
            && d.nodes == c.nodes[s := out.node]
            && d.beats == c.beats[b := c.beats[b].(calls := c.beats[b].calls[s := AppendReplied(args, out.reply)])]
  {
    ReachStructured(5, c);
    assert GoodBeat(c.nodes, c.beats[b]) && GoodCall(c.beats[b], c.beats[b].calls[s]) && GoodNode(c.nodes, s);
    d := Then(5, c, AnswerAppend(b, s));
  }

  lemma HearsAppend(c: State, b: nat, s: nat) returns (d: State)
    requires Reach(5, c) && Enabled(c, HearAppend(b, s)) && s < |c.nodes[c.beats[b].leader].nextIndex|
    requires s < |c.nodes[c.beats[b].leader].matchIndex|
    ensures Reach(5, d)
    ensures var beat := c.beats[b]; var i := beat.leader;
            var out := HandleAppendReply(c.nodes[i], s, beat.calls[s].args, beat.calls[s].reply, beat.appendNums);
            && d.nodes == c.nodes[i := out.node] && |d.beats| == |c.beats|
            && d.beats[b].leader == i && d.beats[b].appendNums == out.appendNums && |d.beats[b].calls| == |beat.calls|
            && (forall k :: 0 <= k < |beat.calls| && k != s ==> d.beats[b].calls[k] == beat.calls[k])
  {
    d := Then(5, c, HearAppend(b, s));
  }

  /** Leader i and peer s exchange one message; the rest of the round is lost. */
  lemma Exchanges(c: State, i: nat, s: nat) returns (d: State)
    requires Reach(5, c) && |c.nodes| == 5 && i < 5 && s < 5 && i != s
    requires c.nodes[i].status == Leader && c.nodes[i].me == i && c.nodes[i].peers == 5
    requires Sound(c.nodes[i]) && CanBeat(c.nodes[i]) && c.nodes[i].nextIndex[s] > c.nodes[i].snapIndex
    ensures Sound(c.nodes[s]) && Contiguous(BuildAppend(c.nodes[i], s)) && Reach(5, d) && |d.nodes| == 5
    ensures forall j :: 0 <= j < 5 && j != i && j != s ==> d.nodes[j] == c.nodes[j]
    ensures var args := BuildAppend(c.nodes[i], s); var out := HandleAppend(c.nodes[s], args);
            && d.nodes[s] == out.node
            && d.nodes[i] == HandleAppendReply(c.nodes[i], s, args, out.reply, 1).node
  {
    var b := |c.beats|;
    assert NewBeat(c.nodes[i]).calls[s] == CallFor(DispatchTo(c.nodes[i], s));
    d := Beats(c, i);
    d := Answers(d, b, s);
    d := HearsAppend(d, b, s);
  }

  lemma AnswersTwo(c: State, i: nat, u: nat, v: nat) returns (d: State)
    requires Reach(5, c) && |c.nodes| == 5 && i < 5 && u < 5 && v < 5 && i != u && i != v && u != v
    requires c.nodes[i].status == Leader && c.nodes[i].me == i && c.nodes[i].peers == 5
    requires Sound(c.nodes[i]) && CanBeat(c.nodes[i])
    requires c.nodes[i].nextIndex[u] > c.nodes[i].snapIndex && c.nodes[i].nextIndex[v] > c.nodes[i].snapIndex
    ensures Sound(c.nodes[u]) && Contiguous(BuildAppend(c.nodes[i], u))
    ensures Sound(c.nodes[v]) && Contiguous(BuildAppend(c.nodes[i], v)) && Reach(5, d)
    ensures var a := BuildAppend(c.nodes[i], u); var a' := BuildAppend(c.nodes[i], v);
            var out := HandleAppend(c.nodes[u], a); var out' := HandleAppend(c.nodes[v], a');
            && d.nodes == c.nodes[u := out.node][v := out'.node]
            && |d.beats| == |c.beats| + 1
            && var beat := d.beats[|c.beats|];
               && beat.leader == i && beat.appendNums == 1 && |beat.calls| == 5
               && beat.calls[u] == AppendReplied(a, out.reply) && beat.calls[v] == AppendReplied(a', out'.reply)
  {
    var b := |c.beats|;
    assert NewBeat(c.nodes[i]).calls[u] == CallFor(DispatchTo(c.nodes[i], u));
    assert NewBeat(c.nodes[i]).calls[v] == CallFor(DispatchTo(c.nodes[i], v));
    d := Beats(c, i);
    d := Answers(d, b, u);
    d := Answers(d, b, v);
  }

  function Success(term: int): AppendEntriesReply {
    AppendEntriesReply(term, true, 0, APP_NORMAL)
  }

  /** The leader after the first two acknowledgements of one round. */
  function AfterTwo(s: Node, u: nat, a: AppendEntriesArgs, v: nat, a': AppendEntriesArgs): Node
    requires u < |s.nextIndex| == |s.matchIndex| && v < |s.nextIndex|
  {
    var tally := HandleAppendReply(s, u, a, Success(s.term), 1);
    HandleAppendReply(tally.node, v, a', Success(s.term), tally.appendNums).node
  }

  /** Both replies of the round have come back to leader i. */
  predicate BothReplied(c: State, b: nat, i: nat, u: nat, v: nat, a: AppendEntriesArgs, a': AppendEntriesArgs) {
    && |c.nodes| == 5 && i < 5 && u < 5 && v < 5 && u != v && |c.nodes[i].nextIndex| == |c.nodes[i].matchIndex| == 5
    && b < |c.beats| && c.beats[b].leader == i && c.beats[b].appendNums == 1 && |c.beats[b].calls| == 5
    && c.beats[b].calls[u] == AppendReplied(a, Success(c.nodes[i].term))
    && c.beats[b].calls[v] == AppendReplied(a', Success(c.nodes[i].term))
  }

  lemma HearsTwo(c: State, b: nat, i: nat, u: nat, v: nat, a: AppendEntriesArgs, a': AppendEntriesArgs)
      returns (d: State)
    requires Reach(5, c) && BothReplied(c, b, i, u, v, a, a')
    ensures Reach(5, d) && d.nodes == c.nodes[i := AfterTwo(c.nodes[i], u, a, v, a')]
  {
    d := HearsAppend(c, b, u);
    d := HearsAppend(d, b, v);
  }

  /** Leader i hears from u and then from v in one round. */
  lemma ExchangesTwo(c: State, i: nat, u: nat, v: nat, a: AppendEntriesArgs, a': AppendEntriesArgs) returns (d: State)
    requires Reach(5, c) && BothAccept(c, i, u, v, a, a')
    ensures Reach(5, d) && |d.nodes| == 5
    ensures d.nodes[u] == HandleAppend(c.nodes[u], a).node && d.nodes[v] == HandleAppend(c.nodes[v], a').node
    ensures d.nodes[i] == AfterTwo(c.nodes[i], u, a, v, a')
    ensures forall j :: 0 <= j < 5 && j != i && j != u && j != v ==> d.nodes[j] == c.nodes[j]
  {
    d := AnswersTwo(c, i, u, v);
    assert d.nodes[i] == c.nodes[i];
    d := HearsTwo(d, |c.beats|, i, u, v, a, a');
  }

  /** Peers u and v accept what leader i has for them. */
  predicate BothAccept(c: State, i: nat, u: nat, v: nat, a: AppendEntriesArgs, a': AppendEntriesArgs) {
    && |c.nodes| == 5 && i < 5 && u < 5 && v < 5 && i != u && i != v && u != v
    && c.nodes[i].status == Leader && c.nodes[i].me == i && c.nodes[i].peers == 5
    && Sound(c.nodes[i]) && CanBeat(c.nodes[i])
    && c.nodes[i].nextIndex[u] > c.nodes[i].snapIndex && c.nodes[i].nextIndex[v] > c.nodes[i].snapIndex
    && a == BuildAppend(c.nodes[i], u) && a' == BuildAppend(c.nodes[i], v)
    && Accepts(c.nodes[u], a, c.nodes[i].term) && Accepts(c.nodes[v], a', c.nodes[i].term)
  }

  predicate Accepts(s: Node, a: AppendEntriesArgs, term: int) {
    Sound(s) && Contiguous(a) && HandleAppend(s, a).reply == Success(term)
  }

  /** A node that never took a snapshot. */
  predicate Is(s: Node, me: nat, term: int, votedFor: int, status: Status, logs: seq<Entry>, commitIndex: int,
               nextIndex: seq<int>)
  {
    && s.me == me && s.peers == 5 && s.term == term && s.votedFor == votedFor && s.status == status
    && s.logs == logs && s.commitIndex == commitIndex && s.nextIndex == nextIndex && |s.matchIndex| == 5
    && s.snapIndex == 0 && s.snapTerm == 0 && s.lastApplied == 0
  }

  function Write(value: string): Op {
    Op("Put", "k", value, "client", 1)
  }

  const A := Entry(1, 1, Write("a"))
  const B := Entry(2, 1, Write("b"))
  const C := Entry(1, 2, Write("c"))
  const D := Entry(3, 3, Write("d"))

  /** A node that never heard of anyone. */
  predicate Untouched(s: Node, me: nat) {
    Is(s, me, 0, NOBODY, Follower, [], 0, [0, 0, 0, 0, 0])
  }

  lemma Beginning() returns (d: State)
    ensures Reach(5, d) && |d.nodes| == 5 && forall i: nat :: i < 5 ==> Untouched(d.nodes[i], i)
  {
    ReachInit(5);
    d := Init(5);
  }

  lemma FirstElection() returns (d: State)
    ensures Reach(5, d) && |d.nodes| == 5
    ensures Is(d.nodes[0], 0, 1, 0, Leader, [], 0, [1, 1, 1, 1, 1]) && d.nodes[0].matchIndex == [0, 0, 0, 0, 0]
    ensures Is(d.nodes[1], 1, 1, 0, Follower, [], 0, [0, 0, 0, 0, 0])
    ensures Is(d.nodes[2], 2, 1, 0, Follower, [], 0, [0, 0, 0, 0, 0])
    ensures Untouched(d.nodes[3], 3) && Untouched(d.nodes[4], 4)
  {
    var c := Beginning();
    assert Untouched(c.nodes[0], 0) && Untouched(c.nodes[1], 1) && Untouched(c.nodes[2], 2);
    assert CanWin(c, 0, 1, 2);
    d := Wins(c, 0, 1, 2);
    assert Untouched(c.nodes[3], 3) && Untouched(c.nodes[4], 4);
  }

  lemma FirstCommands() returns (d: State)
    ensures Reach(5, d) && |d.nodes| == 5
    ensures Is(d.nodes[0], 0, 1, 0, Leader, [A, B], 0, [1, 1, 1, 1, 1]) && d.nodes[0].matchIndex == [0, 0, 0, 0, 0]
    ensures Is(d.nodes[1], 1, 1, 0, Follower, [], 0, [0, 0, 0, 0, 0])
    ensures Is(d.nodes[2], 2, 1, 0, Follower, [], 0, [0, 0, 0, 0, 0])
    ensures Untouched(d.nodes[3], 3) && Untouched(d.nodes[4], 4)
  {
    d := FirstElection();
    d := Submits(d, 0, Write("a"));
    d := Submits(d, 0, Write("b"));
  }

  lemma Copies(s: Node, a: AppendEntriesArgs)
    requires Is(s, 1, 1, 0, Follower, [], 0, [0, 0, 0, 0, 0]) && a == AppendEntriesArgs(1, 0, 0, 0, [A, B], 0)
    ensures Sound(s) && Contiguous(a)
    ensures Is(HandleAppend(s, a).node, 1, 1, 0, Follower, [A, B], 0, [0, 0, 0, 0, 0])
    ensures HandleAppend(s, a).reply == Success(1)
  {}

  lemma HearsFirst(s: Node, a: AppendEntriesArgs)
    requires Is(s, 0, 1, 0, Leader, [A, B], 0, [1, 1, 1, 1, 1]) && s.matchIndex == [0, 0, 0, 0, 0]
    requires a == AppendEntriesArgs(1, 0, 0, 0, [A, B], 0)
    ensures Is(HandleAppendReply(s, 1, a, Success(1), 1).node, 0, 1, 0, Leader, [A, B], 0, [1, 3, 1, 1, 1])
  {}

  /** Node 0 leads term 1, appends a and b, and replicates them to node 1 only. */
  lemma FirstLeader() returns (d: State)
    ensures Reach(5, d) && |d.nodes| == 5
    ensures Is(d.nodes[0], 0, 1, 0, Leader, [A, B], 0, [1, 3, 1, 1, 1])
    ensures Is(d.nodes[1], 1, 1, 0, Follower, [A, B], 0, [0, 0, 0, 0, 0])
    ensures Is(d.nodes[2], 2, 1, 0, Follower, [], 0, [0, 0, 0, 0, 0])
    ensures Untouched(d.nodes[3], 3) && Untouched(d.nodes[4], 4)
  {
    var c := FirstCommands();
    var a := BuildAppend(c.nodes[0], 1);
    Copies(c.nodes[1], a);
    HearsFirst(c.nodes[0], a);
    d := Exchanges(c, 0, 1);
  }

  lemma SecondElection() returns (d: State)
    ensures Reach(5, d) && |d.nodes| == 5
    ensures Is(d.nodes[0], 0, 1, 0, Leader, [A, B], 0, [1, 3, 1, 1, 1])
    ensures Is(d.nodes[1], 1, 1, 0, Follower, [A, B], 0, [0, 0, 0, 0, 0])
    ensures Is(d.nodes[2], 2, 2, 2, Leader, [C], 0, [1, 1, 1, 1, 1])
    ensures Is(d.nodes[3], 3, 2, 2, Follower, [], 0, [0, 0, 0, 0, 0])
    ensures Is(d.nodes[4], 4, 2, 2, Follower, [], 0, [0, 0, 0, 0, 0])
  {
    d := FirstLeader();
    d := Wins(d, 2, 3, 4);
    d := Submits(d, 2, Write("c"));
  }

  /** The message with c overwrites the first slot of node 1 and leaves b behind it. */
  lemma KeepsTail(s: Node, a: AppendEntriesArgs)
    requires Is(s, 1, 1, 0, Follower, [A, B], 0, [0, 0, 0, 0, 0]) && a == AppendEntriesArgs(2, 2, 0, 0, [C], 0)
    ensures Sound(s) && Contiguous(a)
    ensures Is(HandleAppend(s, a).node, 1, 2, NOBODY, Follower, [C, B], 0, [0, 0, 0, 0, 0])
    ensures HandleAppend(s, a).reply == Success(2)
  {
    assert Merged([A, B], 0, [C]) == [C, B];
  }

  lemma TakesFirst(s: Node, a: AppendEntriesArgs)
    requires Is(s, 3, 2, 2, Follower, [], 0, [0, 0, 0, 0, 0]) && a == AppendEntriesArgs(2, 2, 0, 0, [C], 0)
    ensures Sound(s) && Contiguous(a)
    ensures HandleAppend(s, a).reply == Success(2)
  {}

  lemma CommitsOne(s: Node, a: AppendEntriesArgs)
    requires Is(s, 2, 2, 2, Leader, [C], 0, [1, 1, 1, 1, 1]) && a == AppendEntriesArgs(2, 2, 0, 0, [C], 0)
    ensures var t := AfterTwo(s, 1, a, 3, a); t.logs == [C] && t.commitIndex == 1
  {}

  lemma SecondBuild(s: Node) returns (a: AppendEntriesArgs)
    requires Is(s, 2, 2, 2, Leader, [C], 0, [1, 1, 1, 1, 1])
    ensures a == AppendEntriesArgs(2, 2, 0, 0, [C], 0) && a == BuildAppend(s, 1) == BuildAppend(s, 3)
    ensures Sound(s) && CanBeat(s)
  {
    a := BuildAppend(s, 1);
  }

  lemma SecondRound(c: State, a: AppendEntriesArgs)
    requires |c.nodes| == 5 && Is(c.nodes[2], 2, 2, 2, Leader, [C], 0, [1, 1, 1, 1, 1])
    requires Is(c.nodes[1], 1, 1, 0, Follower, [A, B], 0, [0, 0, 0, 0, 0])
    requires Is(c.nodes[3], 3, 2, 2, Follower, [], 0, [0, 0, 0, 0, 0])
    requires a == AppendEntriesArgs(2, 2, 0, 0, [C], 0)
    ensures BothAccept(c, 2, 1, 3, a, a)
  {
    var built := SecondBuild(c.nodes[2]);
    KeepsTail(c.nodes[1], a);
    TakesFirst(c.nodes[3], a);
  }

  /** Node 2 leads term 2 and commits c at index 1, also on node 1, which keeps b behind it. */
  lemma SecondLeader() returns (d: State)
    ensures Reach(5, d) && |d.nodes| == 5
    ensures Is(d.nodes[0], 0, 1, 0, Leader, [A, B], 0, [1, 3, 1, 1, 1])
    ensures Is(d.nodes[1], 1, 2, NOBODY, Follower, [C, B], 0, [0, 0, 0, 0, 0])
    ensures d.nodes[2].commitIndex == 1 && d.nodes[2].logs == [C]
    ensures Is(d.nodes[4], 4, 2, 2, Follower, [], 0, [0, 0, 0, 0, 0])
  {
    var c := SecondElection();
    var a := AppendEntriesArgs(2, 2, 0, 0, [C], 0);
    SecondRound(c, a);
    KeepsTail(c.nodes[1], a);
    CommitsOne(c.nodes[2], a);
    d := ExchangesTwo(c, 2, 1, 3, a, a);
  }

  /** Node 0 learns of term 2 from node 1. */
  lemma LearnsTerm() returns (d: State)
    ensures Reach(5, d) && |d.nodes| == 5
    ensures Is(d.nodes[0], 0, 2, NOBODY, Follower, [A, B], 0, [1, 3, 1, 1, 1])
    ensures Is(d.nodes[1], 1, 2, NOBODY, Follower, [C, B], 0, [0, 0, 0, 0, 0])
    ensures d.nodes[2].commitIndex == 1 && d.nodes[2].logs == [C]
    ensures Is(d.nodes[4], 4, 2, 2, Follower, [], 0, [0, 0, 0, 0, 0])
  {
    d := SecondLeader();
    d := Exchanges(d, 0, 1);
  }

  lemma ThirdElection() returns (d: State)
    ensures Reach(5, d) && |d.nodes| == 5
    ensures Is(d.nodes[0], 0, 3, 0, Leader, [A, B], 0, [3, 3, 3, 3, 3])
    ensures Is(d.nodes[1], 1, 3, 0, Follower, [C, B], 0, [0, 0, 0, 0, 0])
    ensures d.nodes[2].commitIndex == 1 && d.nodes[2].logs == [C]
    ensures Is(d.nodes[4], 4, 3, 0, Follower, [], 0, [0, 0, 0, 0, 0])
  {
    d := LearnsTerm();
    assert CanWin(d, 0, 1, 4);
    d := Wins(d, 0, 1, 4);
  }

  /** Node 0 wins term 3 without c: node 1's stale tail ends like its own log. */
  lemma ThirdLeader() returns (d: State)
    ensures Reach(5, d) && |d.nodes| == 5
    ensures Is(d.nodes[0], 0, 3, 0, Leader, [A, B, D], 0, [3, 3, 3, 3, 3])
    ensures Is(d.nodes[1], 1, 3, 0, Follower, [C, B], 0, [0, 0, 0, 0, 0])
    ensures d.nodes[2].commitIndex == 1 && d.nodes[2].logs == [C]
    ensures Is(d.nodes[4], 4, 3, 0, Follower, [], 0, [0, 0, 0, 0, 0])
  {
    d := ThirdElection();
    d := Submits(d, 0, Write("d"));
  }

  /** The previous entry is b of term 1, which the stale tail of node 1 has. */
  lemma ExtendsTail(s: Node, a: AppendEntriesArgs)
    requires Is(s, 1, 3, 0, Follower, [C, B], 0, [0, 0, 0, 0, 0]) && a == AppendEntriesArgs(3, 0, 2, 1, [D], 0)
    ensures Sound(s) && Contiguous(a)
    ensures HandleAppend(s, a).node.logs == [C, B, D]
    ensures HandleAppend(s, a).reply == Success(3)
  {
    assert Merged([C, B], 2, [D]) == [C, B, D];
  }

  lemma FillsEmpty(s: Node, a: AppendEntriesArgs)
    requires Is(s, 4, 3, 0, Follower, [], 0, [0, 0, 0, 0, 0]) && a == AppendEntriesArgs(3, 0, 0, 0, [A, B, D], 0)
    ensures Sound(s) && Contiguous(a)
    ensures HandleAppend(s, a).reply == Success(3)
  {}

  lemma CommitsThree(s: Node, a: AppendEntriesArgs, a': AppendEntriesArgs)
    requires Is(s, 0, 3, 0, Leader, [A, B, D], 0, [3, 3, 3, 3, 1])
    requires a == AppendEntriesArgs(3, 0, 2, 1, [D], 0) && a' == AppendEntriesArgs(3, 0, 0, 0, [A, B, D], 0)
    ensures var t := AfterTwo(s, 1, a, 4, a');
            && t.logs == [A, B, D] && t.commitIndex == 3 && t.snapIndex == 0 && t.lastApplied == 0
            && t.status == Leader && t.term == 3
  {}

  lemma AsksFourth(s: Node, f: Node)
    requires Is(s, 0, 3, 0, Leader, [A, B, D], 0, [3, 3, 3, 3, 3]) && Is(f, 4, 3, 0, Follower, [], 0, [0, 0, 0, 0, 0])
    ensures Sound(s) && CanBeat(s) && Sound(f) && BuildAppend(s, 4) == AppendEntriesArgs(3, 0, 2, 1, [D], 0)
    ensures Contiguous(BuildAppend(s, 4))
    ensures var out := HandleAppend(f, BuildAppend(s, 4));
            && Is(out.node, 4, 3, 0, Follower, [], 0, [0, 0, 0, 0, 0]) && !out.reply.success
            && Is(HandleAppendReply(s, 4, BuildAppend(s, 4), out.reply, 1).node, 0, 3, 0, Leader, [A, B, D], 0,
                [3, 3, 3, 3, 1])
  {
    assert [A, B, D][2..] == [D];
  }

  lemma FourthPeerBehind() returns (d: State)
    ensures Reach(5, d) && |d.nodes| == 5
    ensures Is(d.nodes[0], 0, 3, 0, Leader, [A, B, D], 0, [3, 3, 3, 3, 1])
    ensures Is(d.nodes[1], 1, 3, 0, Follower, [C, B], 0, [0, 0, 0, 0, 0])
    ensures d.nodes[2].commitIndex == 1 && d.nodes[2].logs == [C]
    ensures Is(d.nodes[4], 4, 3, 0, Follower, [], 0, [0, 0, 0, 0, 0])
  {
    var c := ThirdLeader();
    AsksFourth(c.nodes[0], c.nodes[4]);
    d := Exchanges(c, 0, 4);
  }

  lemma LastRound(c: State, a: AppendEntriesArgs, a': AppendEntriesArgs)
    requires |c.nodes| == 5 && Is(c.nodes[0], 0, 3, 0, Leader, [A, B, D], 0, [3, 3, 3, 3, 1])
    requires Is(c.nodes[1], 1, 3, 0, Follower, [C, B], 0, [0, 0, 0, 0, 0])
    requires Is(c.nodes[4], 4, 3, 0, Follower, [], 0, [0, 0, 0, 0, 0])
    requires a == AppendEntriesArgs(3, 0, 2, 1, [D], 0) && a' == AppendEntriesArgs(3, 0, 0, 0, [A, B, D], 0)
    ensures BothAccept(c, 0, 1, 4, a, a')
  {
    assert [A, B, D][0..] == [A, B, D] && [A, B, D][2..] == [D];
    ExtendsTail(c.nodes[1], a);
    FillsEmpty(c.nodes[4], a');
  }

  /** State Machine Safety fails: two nodes of a reachable state have committed different commands at
      index 1. The leader of term 3 lacks an entry committed in term 2, and the logs of nodes 0 and 1
      agree at index 2 but not before it. */
  lemma SafetyFails() returns (d: State)
    ensures Reach(5, d) && |d.nodes| == 5
    ensures d.nodes[0].logs == [A, B, D] && d.nodes[0].commitIndex == 3
    ensures d.nodes[2].logs == [C] && d.nodes[2].commitIndex == 1
    ensures d.nodes[0].snapIndex == d.nodes[0].lastApplied == 0 && A.index == C.index && A.command != C.command
    ensures d.nodes[0].status == Leader && d.nodes[0].term == 3 && d.nodes[1].logs == [C, B, D]
  {
    var c := FourthPeerBehind();
    var a, a' := AppendEntriesArgs(3, 0, 2, 1, [D], 0), AppendEntriesArgs(3, 0, 0, 0, [A, B, D], 0);
    LastRound(c, a, a');
    ExtendsTail(c.nodes[1], a);
    CommitsThree(c.nodes[0], a, a');
    d := ExchangesTwo(c, 0, 1, 4, a, a');
  }
}
