/** A cluster of n nodes and the remote calls between them. One action is one locked section of
    raft.cc. A call that is never answered, or whose reply is never heard, is a lost message; the
    order of the actions is free, so calls and replies are delayed and reordered at will. */
module Cluster {
  import opened KvTypes
  import opened RaftNode

  // ------------------------------------------------------------ calls in flight

  /** One RequestVote task. The candidate's own slot is VoteCounted from the start. */
  datatype VoteCall = VotePending | VoteReplied(reply: RequestVoteReply) | VoteCounted | VoteIgnored

  /** One doElection: the tasks it posted and the counter they share.
      wins is history: how often the majority branch of sendRequestVote ran for this counter. */
  datatype Election = Election(args: RequestVoteArgs, candidate: nat, calls: seq<VoteCall>, votedNum: int, wins: nat)

  /** One slot of a heartbeat round. */
  datatype AppendCall =
    | LeaderSlot
    | ViaSnapshot
    | AppendPending(args: AppendEntriesArgs)
    | AppendReplied(args: AppendEntriesArgs, reply: AppendEntriesReply)
    | AppendCounted(args: AppendEntriesArgs)
    | AppendIgnored(args: AppendEntriesArgs)

  /** One doHeartBeat: its tasks and the counter they share.
      endIndex and endTerm are history: the last index of the leader's log and its term when the round
      was built; majorities is history: how often the majority branch of sendAppendEntries ran. */
  datatype Beat = Beat(leader: nat, term: int, endIndex: int, endTerm: int, calls: seq<AppendCall>,
                       appendNums: int, majorities: nat)

  datatype SnapCall =
    | SnapPosted(leader: nat, server: nat)
    | SnapPending(leader: nat, server: nat, args: InstallSnapshotArgs)
    | SnapReplied(leader: nat, server: nat, args: InstallSnapshotArgs, reply: InstallSnapshotReply)
    | SnapDone

  /** History: a leader raised its commit index to index because ackers answered its round. */
  datatype Commit = Commit(leader: nat, term: int, index: int, ackers: set<nat>)

  /** created is history: the command of every entry ever made by Start, by term and index.
      ledger is history: for each term that had a leader, the terms at the indices of the leader's log. */
  datatype State = State(
    nodes: seq<Node>, elections: seq<Election>, beats: seq<Beat>, snaps: seq<SnapCall>,
    created: map<(int, int), Command>, ledger: map<int, map<int, int>>, commits: seq<Commit>)

  // -------------------------------------------------------------------- actions

  datatype Action =
    | DoElection(i: nat)
    | AnswerVote(e: nat, s: nat)
    | HearVote(e: nat, s: nat)
    | DoHeartBeat(i: nat)
    | AnswerAppend(b: nat, s: nat)
    | HearAppend(b: nat, s: nat)
    | BuildSnap(k: nat)
    | AnswerSnap(k: nat)
    | HearSnap(k: nat)
    | Submit(i: nat, command: Command)
    | TakeSnapshot(i: nat, index: int, data: Image)
    | Apply(i: nat)

  predicate Enabled(c: State, a: Action) {
    match a
    case DoElection(i) => i < |c.nodes|
    case AnswerVote(e, s) =>
      e < |c.elections| && s < |c.nodes| && s < |c.elections[e].calls| && c.elections[e].calls[s].VotePending?
    case HearVote(e, s) =>
      e < |c.elections| && s < |c.elections[e].calls| && c.elections[e].calls[s].VoteReplied?
      && c.elections[e].candidate < |c.nodes|
    case DoHeartBeat(i) => i < |c.nodes| && c.nodes[i].status == Leader && CanBeat(c.nodes[i])
    case AnswerAppend(b, s) =>
      b < |c.beats| && s < |c.nodes| && s < |c.beats[b].calls| && c.beats[b].calls[s].AppendPending?
    case HearAppend(b, s) =>
      b < |c.beats| && s < |c.beats[b].calls| && c.beats[b].calls[s].AppendReplied? && c.beats[b].leader < |c.nodes|
    case BuildSnap(k) => k < |c.snaps| && c.snaps[k].SnapPosted? && c.snaps[k].leader < |c.nodes|
    case AnswerSnap(k) => k < |c.snaps| && c.snaps[k].SnapPending? && c.snaps[k].server < |c.nodes|
    case HearSnap(k) => k < |c.snaps| && c.snaps[k].SnapReplied? && c.snaps[k].leader < |c.nodes|
    case Submit(i, _) => i < |c.nodes| && c.nodes[i].status == Leader
    case TakeSnapshot(i, _, _) => i < |c.nodes|
    case Apply(i) => i < |c.nodes|
  }

  // ------------------------------------------------------- structural invariant

  predicate HasArgs(k: AppendCall) {
    k.AppendPending? || k.AppendReplied? || k.AppendCounted? || k.AppendIgnored?
  }

  /** What every call of a round has in common: the round's term, and the end of the leader's log. */
  predicate GoodCall(b: Beat, k: AppendCall) {
    && (HasArgs(k) ==>
          && k.args.term == b.term && k.args.leaderId == b.leader
          && Contiguous(k.args)
          && EndIndex(k.args) == b.endIndex && EndTerm(k.args) == b.endTerm
          && k.args.leaderCommit <= b.endIndex)
    && (k.AppendReplied? && k.reply.success ==> k.reply.term == b.term)
  }

  predicate GoodBeat(nodes: seq<Node>, b: Beat) {
    && b.leader < |nodes| && |b.calls| == |nodes|
    && 1 <= b.term <= nodes[b.leader].term
    && b.endIndex <= nodes[b.leader].snapIndex + |nodes[b.leader].logs|
    && b.calls[b.leader].LeaderSlot?
    && (forall s :: 0 <= s < |b.calls| && s != b.leader ==> !b.calls[s].LeaderSlot?)
    && (forall s {:trigger GoodCall(b, b.calls[s])} :: 0 <= s < |b.calls| ==> GoodCall(b, b.calls[s]))
  }

  predicate GoodElection(nodes: seq<Node>, e: Election) {
    && e.candidate < |nodes| && |e.calls| == |nodes|
    && e.args.candidateId == e.candidate
    && 1 <= e.args.term <= nodes[e.candidate].term
    && e.calls[e.candidate].VoteCounted?
  }

  predicate GoodSnap(nodes: seq<Node>, k: SnapCall) {
    && (!k.SnapDone? ==> k.leader < |nodes| && k.server < |nodes|)
    && (k.SnapPending? || k.SnapReplied? ==> SaneSnapshot(k.args))
  }

  predicate GoodNode(nodes: seq<Node>, i: nat)
    requires i < |nodes|
  {
    && Sound(nodes[i]) && nodes[i].me == i && nodes[i].peers == |nodes|
    && (nodes[i].status == Leader ==> nodes[i].term >= 1)
  }

  /** Everything the locked sections rely on not to leave an array or a log. */
  predicate Structured(c: State) {
    && |c.nodes| >= 1
    && (forall i :: 0 <= i < |c.nodes| ==> GoodNode(c.nodes, i))
    && (forall e {:trigger GoodElection(c.nodes, c.elections[e])} ::
          0 <= e < |c.elections| ==> GoodElection(c.nodes, c.elections[e]))
    && (forall b {:trigger GoodBeat(c.nodes, c.beats[b])} :: 0 <= b < |c.beats| ==> GoodBeat(c.nodes, c.beats[b]))
    && (forall k {:trigger GoodSnap(c.nodes, c.snaps[k])} :: 0 <= k < |c.snaps| ==> GoodSnap(c.nodes, c.snaps[k]))
  }

  // ---------------------------------------------------------------------- steps

  function Init(n: nat): State {
    State(seq(n, (i: nat) => InitNode(i, n)), [], [], [], map[], map[], [])
  }

  function NewElection(s: Node, n: nat): Election {
    Election(VoteRequest(s), s.me, seq(n, i => if i == s.me then VoteCounted else VotePending), 1, 0)
  }

  function StepDoElection(c: State, i: nat): State
    requires Enabled(c, DoElection(i))
  {
    var s := Elect(c.nodes[i]);
    if c.nodes[i].status == Leader then c
    else c.(nodes := c.nodes[i := s], elections := c.elections + [NewElection(s, |c.nodes|)])
  }

  function StepAnswerVote(c: State, e: nat, s: nat): State
    requires Enabled(c, AnswerVote(e, s))
  {
    var el := c.elections[e];
    var out := HandleRequestVote(c.nodes[s], el.args);
    c.(nodes := c.nodes[s := out.node],
       elections := c.elections[e := el.(calls := el.calls[s := VoteReplied(out.reply)])])
  }

  function LogTerms(s: Node): map<int, int>
    requires Sound(s)
  {
    map k: int | s.snapIndex <= k <= s.snapIndex + |s.logs| :: TermAt(s, k)
  }

  function StepHearVote(c: State, e: nat, s: nat): State
    requires Structured(c) && Enabled(c, HearVote(e, s))
  {
    var el := c.elections[e];
    var i := el.candidate;
    assert GoodNode(c.nodes, i);
    var out := HandleVoteReply(c.nodes[i], el.calls[s].reply, el.votedNum);
    c.(nodes := c.nodes[i := out.node],
       elections := c.elections[e := el.(calls := el.calls[s := if out.counted then VoteCounted else VoteIgnored],
                                         votedNum := out.votedNum,
                                         wins := if out.won then el.wins + 1 else el.wins)],
       ledger := if out.won then c.ledger[out.node.term := LogTerms(c.nodes[i])] else c.ledger)
  }

  function CallFor(d: Dispatch): AppendCall {
    match d
    case NoTask => LeaderSlot
    case SnapshotTask => ViaSnapshot
    case AppendTask(args) => AppendPending(args)
  }

  function NewBeat(s: Node): Beat
    requires Sound(s) && CanBeat(s)
  {
    var round := Round(s);
    Beat(s.me, s.term, LastIndex(s), LastTerm(s), seq(|round|, i requires 0 <= i < |round| => CallFor(round[i])), 1, 0)
  }

  function SnapTasks(leader: nat, round: seq<Dispatch>): (r: seq<SnapCall>)
    ensures forall k :: 0 <= k < |r| ==> r[k].SnapPosted? && r[k].leader == leader && r[k].server < |round|
  {
    if round == [] then []
    else SnapTasks(leader, round[..|round| - 1])
         + (if round[|round| - 1].SnapshotTask? then [SnapPosted(leader, |round| - 1)] else [])
  }

  /** A round posts one task for each peer that is sent the snapshot, in the order of the peers, and no others. */
  lemma {:induction false} SnapTasksPosted(leader: nat, round: seq<Dispatch>)
    ensures var r := SnapTasks(leader, round);
            && (forall s: nat :: SnapPosted(leader, s) in r <==> s < |round| && round[s].SnapshotTask?)
            && (forall j, k :: 0 <= j < k < |r| ==> r[j].server < r[k].server)
  {
    if round != [] { SnapTasksPosted(leader, round[..|round| - 1]); }
  }

  function StepDoHeartBeat(c: State, i: nat): State
    requires Structured(c) && Enabled(c, DoHeartBeat(i))
  {
    assert GoodNode(c.nodes, i);
    c.(beats := c.beats + [NewBeat(c.nodes[i])], snaps := c.snaps + SnapTasks(i, Round(c.nodes[i])))
  }

  function StepAnswerAppend(c: State, b: nat, s: nat): State
    requires Structured(c) && Enabled(c, AnswerAppend(b, s))
  {
    var beat := c.beats[b];
    var args := beat.calls[s].args;
    assert GoodBeat(c.nodes, beat) && GoodCall(beat, beat.calls[s]) && GoodNode(c.nodes, s);
    var out := HandleAppend(c.nodes[s], args);
    c.(nodes := c.nodes[s := out.node],
       beats := c.beats[b := beat.(calls := beat.calls[s := AppendReplied(args, out.reply)])])
  }

  predicate Acking(k: AppendCall) {
    k.LeaderSlot? || k.AppendCounted?
  }

  function Ackers(b: Beat): set<nat> {
    set s: nat | s < |b.calls| && Acking(b.calls[s])
  }

  function StepHearAppend(c: State, b: nat, s: nat): State
    requires Structured(c) && Enabled(c, HearAppend(b, s))
  {
    var beat := c.beats[b];
    var i := beat.leader;
    var call := beat.calls[s];
    assert GoodBeat(c.nodes, beat) && GoodNode(c.nodes, i);
    var out := HandleAppendReply(c.nodes[i], s, call.args, call.reply, beat.appendNums);
    var call' := if out.counted then AppendCounted(call.args) else AppendIgnored(call.args);
    var beat' := beat.(calls := beat.calls[s := call'],
                       appendNums := out.appendNums,
                       majorities := if out.majority then beat.majorities + 1 else beat.majorities);
    c.(nodes := c.nodes[i := out.node], beats := c.beats[b := beat'],
       commits := if out.committed
                  then c.commits + [Commit(i, out.node.term, EndIndex(call.args), Ackers(beat'))] else c.commits)
  }

  function StepBuildSnap(c: State, k: nat): State
    requires Enabled(c, BuildSnap(k))
  {
    var t := c.snaps[k];
    c.(snaps := c.snaps[k := SnapPending(t.leader, t.server, BuildSnapshot(c.nodes[t.leader]))])
  }

  function StepAnswerSnap(c: State, k: nat): State
    requires Structured(c) && Enabled(c, AnswerSnap(k))
  {
    var t := c.snaps[k];
    assert GoodSnap(c.nodes, t) && GoodNode(c.nodes, t.server);
    var out := HandleInstall(c.nodes[t.server], t.args);
    c.(nodes := c.nodes[t.server := out.node],
       snaps := c.snaps[k := SnapReplied(t.leader, t.server, t.args, out.reply)])
  }

  function StepHearSnap(c: State, k: nat): State
    requires Structured(c) && Enabled(c, HearSnap(k))
  {
    var t := c.snaps[k];
    assert GoodSnap(c.nodes, t) && GoodNode(c.nodes, t.leader);
    c.(nodes := c.nodes[t.leader := HandleInstallReply(c.nodes[t.leader], t.server, t.args, t.reply)],
       snaps := c.snaps[k := SnapDone])
  }

  function StepSubmit(c: State, i: nat, command: Command): State
    requires Structured(c) && Enabled(c, Submit(i, command))
  {
    var s := c.nodes[i];
    assert GoodNode(c.nodes, i);
    var known := if s.term in c.ledger then c.ledger[s.term] else map[];
    c.(nodes := c.nodes[i := Start(s, command)],
       created := c.created[(s.term, LastIndex(s) + 1) := command],
       ledger := c.ledger[s.term := known[LastIndex(s) + 1 := s.term]])
  }

  function Step(c: State, a: Action): State
    requires Structured(c) && Enabled(c, a)
  {
    match a
    case DoElection(i) => StepDoElection(c, i)
    case AnswerVote(e, s) => StepAnswerVote(c, e, s)
    case HearVote(e, s) => StepHearVote(c, e, s)
    case DoHeartBeat(i) => StepDoHeartBeat(c, i)
    case AnswerAppend(b, s) => StepAnswerAppend(c, b, s)
    case HearAppend(b, s) => StepHearAppend(c, b, s)
    case BuildSnap(k) => StepBuildSnap(c, k)
    case AnswerSnap(k) => StepAnswerSnap(c, k)
    case HearSnap(k) => StepHearSnap(c, k)
    case Submit(i, command) => StepSubmit(c, i, command)
    case TakeSnapshot(i, index, data) =>
      assert GoodNode(c.nodes, i);
      c.(nodes := c.nodes[i := Compact(c.nodes[i], index, data)])
    case Apply(i) => c.(nodes := c.nodes[i := Applied(c.nodes[i])])
  }

  /** The states of a run, from the initial state of n nodes; consecutive states differ by one action.
      Structured is needed for Step to be defined; StructureKept proves that it never stops a run. */
  ghost predicate IsRun(n: nat, run: seq<State>) {
    && n >= 1 && |run| >= 1 && run[0] == Init(n)
    && forall t :: 0 <= t < |run| - 1 ==> IsStep(run[t], run[t + 1])
  }

  ghost predicate IsStep(c: State, d: State) {
    Structured(c) && exists a :: Enabled(c, a) && d == Step(c, a)
  }

  // ------------------------------------------------- the structure is preserved

  predicate NodesGrow(m: seq<Node>, n: seq<Node>) {
    |m| == |n| && forall i {:trigger Grows(m[i], n[i])} :: 0 <= i < |m| ==> Grows(m[i], n[i])
  }

  /** The one node an action may change. */
  function Actor(c: State, a: Action): nat
    requires Enabled(c, a)
  {
    match a
    case DoElection(i) => i
    case AnswerVote(e, s) => s
    case HearVote(e, s) => c.elections[e].candidate
    case DoHeartBeat(i) => i
    case AnswerAppend(b, s) => s
    case HearAppend(b, s) => c.beats[b].leader
    case BuildSnap(k) => c.snaps[k].leader
    case AnswerSnap(k) => c.snaps[k].server
    case HearSnap(k) => c.snaps[k].leader
    case Submit(i, command) => i
    case TakeSnapshot(i, index, data) => i
    case Apply(i) => i
  }

  lemma ActorOnly(c: State, a: Action)
    requires Structured(c) && Enabled(c, a)
    ensures Actor(c, a) < |c.nodes| == |Step(c, a).nodes|
    ensures Step(c, a).nodes == c.nodes[Actor(c, a) := Step(c, a).nodes[Actor(c, a)]]
  {}

  lemma VoteActorGrows(c: State, a: Action)
    requires Structured(c) && Enabled(c, a) && (a.DoElection? || a.AnswerVote? || a.HearVote?)
    ensures var i := Actor(c, a);
            i < |c.nodes| && Grows(c.nodes[i], Step(c, a).nodes[i]) && GoodNode(Step(c, a).nodes, i)
    ensures var i := Actor(c, a); !a.HearVote? ==> NoNewLeader(c.nodes[i], Step(c, a).nodes[i])
  {
    var i := Actor(c, a);
    assert GoodNode(c.nodes, i);
    match a
    case DoElection(_) => ElectSteady(c.nodes[i]);
    case AnswerVote(e, _) => RequestVoteSteady(c.nodes[i], c.elections[e].args);
    case HearVote(e, s) =>
      assert GoodElection(c.nodes, c.elections[e]);
      VoteReplySteady(c.nodes[i], c.elections[e].calls[s].reply, c.elections[e].votedNum);
  }

  lemma AppendActorGrows(c: State, a: Action)
    requires Structured(c) && Enabled(c, a) && (a.DoHeartBeat? || a.AnswerAppend? || a.HearAppend?)
    ensures var i := Actor(c, a);
            i < |c.nodes| && Grows(c.nodes[i], Step(c, a).nodes[i]) && GoodNode(Step(c, a).nodes, i)
    ensures var i := Actor(c, a); NoNewLeader(c.nodes[i], Step(c, a).nodes[i])
  {
    var i := Actor(c, a);
    assert GoodNode(c.nodes, i);
    match a
    case DoHeartBeat(_) =>
    case AnswerAppend(b, s) =>
      assert GoodBeat(c.nodes, c.beats[b]) && GoodCall(c.beats[b], c.beats[b].calls[s]);
      AppendSteady(c.nodes[i], c.beats[b].calls[s].args);
    case HearAppend(b, s) =>
      var beat := c.beats[b];
      assert GoodBeat(c.nodes, beat) && GoodCall(beat, beat.calls[s]);
      AppendReplySteady(c.nodes[i], s, beat.calls[s].args, beat.calls[s].reply, beat.appendNums);
  }

  lemma SnapActorGrows(c: State, a: Action)
    requires Structured(c) && Enabled(c, a) && (a.BuildSnap? || a.AnswerSnap? || a.HearSnap? || a.TakeSnapshot?)
    ensures var i := Actor(c, a);
            i < |c.nodes| && Grows(c.nodes[i], Step(c, a).nodes[i]) && GoodNode(Step(c, a).nodes, i)
    ensures var i := Actor(c, a); NoNewLeader(c.nodes[i], Step(c, a).nodes[i])
  {
    var i := Actor(c, a);
    assert GoodNode(c.nodes, i);
    match a
    case BuildSnap(k) =>
    case AnswerSnap(k) =>
      assert GoodSnap(c.nodes, c.snaps[k]);
      InstallSteady(c.nodes[i], c.snaps[k].args);
    case HearSnap(k) =>
      assert GoodSnap(c.nodes, c.snaps[k]);
      InstallReplySteady(c.nodes[i], c.snaps[k].server, c.snaps[k].args, c.snaps[k].reply);
    case TakeSnapshot(_, index, data) => CompactSteady(c.nodes[i], index, data);
  }

  lemma ActorGrows(c: State, a: Action)
    requires Structured(c) && Enabled(c, a)
    ensures var i := Actor(c, a);
            i < |c.nodes| && Grows(c.nodes[i], Step(c, a).nodes[i]) && GoodNode(Step(c, a).nodes, i)
    ensures var i := Actor(c, a); !a.HearVote? ==> NoNewLeader(c.nodes[i], Step(c, a).nodes[i])
  {
    if a.DoElection? || a.AnswerVote? || a.HearVote? { VoteActorGrows(c, a); }
    else if a.DoHeartBeat? || a.AnswerAppend? || a.HearAppend? { AppendActorGrows(c, a); }
    else if a.Submit? { assert GoodNode(c.nodes, a.i); StartSteady(c.nodes[a.i], a.command); }
    else if a.Apply? { assert GoodNode(c.nodes, a.i); AppliedSteady(c.nodes[a.i]); }
    else { SnapActorGrows(c, a); }
  }

  lemma StepGrows(c: State, a: Action)
    requires Structured(c) && Enabled(c, a)
    ensures NodesGrow(c.nodes, Step(c, a).nodes)
    ensures forall i :: 0 <= i < |c.nodes| ==> GoodNode(Step(c, a).nodes, i)
    ensures !a.HearVote? ==> forall i :: 0 <= i < |c.nodes| ==> NoNewLeader(c.nodes[i], Step(c, a).nodes[i])
  {
    ActorOnly(c, a);
    ActorGrows(c, a);
    var d := Step(c, a);
    forall i | 0 <= i < |c.nodes| ensures GoodNode(d.nodes, i) && Grows(c.nodes[i], d.nodes[i]) {
      assert GoodNode(c.nodes, i);
    }
  }

  lemma BuiltCallGood(s: Node, i: nat)
    requires Sound(s) && CanBeat(s) && i < s.peers
    ensures GoodCall(NewBeat(s), NewBeat(s).calls[i])
    ensures NewBeat(s).calls[i].LeaderSlot? <==> i == s.me
  {
    LastIndexSound(s);
    assert NewBeat(s).calls[i] == CallFor(DispatchTo(s, i));
  }

  lemma GoodBeatGrows(m: seq<Node>, n: seq<Node>, b: Beat)
    requires NodesGrow(m, n) && GoodBeat(m, b)
    ensures GoodBeat(n, b)
  {
    assert Grows(m[b.leader], n[b.leader]);
  }

  lemma GoodElectionGrows(m: seq<Node>, n: seq<Node>, e: Election)
    requires NodesGrow(m, n) && GoodElection(m, e)
    ensures GoodElection(n, e)
  {
    assert Grows(m[e.candidate], n[e.candidate]);
  }

  lemma ElectionKept(c: State, a: Action, e: nat)
    requires Structured(c) && Enabled(c, a) && e < |Step(c, a).elections|
    requires NodesGrow(c.nodes, Step(c, a).nodes)
    ensures GoodElection(Step(c, a).nodes, Step(c, a).elections[e])
  {
    var d := Step(c, a);
    if e < |c.elections| {
      GoodElectionGrows(c.nodes, d.nodes, c.elections[e]);
    } else {
      NewElectionGood(c, a.i);
    }
  }

  lemma NewElectionGood(c: State, i: nat)
    requires Structured(c) && i < |c.nodes| && c.nodes[i].status != Leader
    ensures GoodElection(c.nodes[i := Elect(c.nodes[i])], NewElection(Elect(c.nodes[i]), |c.nodes|))
  {
    assert GoodNode(c.nodes, i);
  }

  lemma OldBeatKept(c: State, a: Action, b: nat)
    requires Structured(c) && Enabled(c, a) && b < |c.beats|
    requires NodesGrow(c.nodes, Step(c, a).nodes)
    ensures b < |Step(c, a).beats| && GoodBeat(Step(c, a).nodes, Step(c, a).beats[b])
  {
    var d := Step(c, a);
    GoodBeatGrows(c.nodes, d.nodes, c.beats[b]);
    if a.AnswerAppend? && a.b == b {
      assert GoodCall(c.beats[b], c.beats[b].calls[a.s]);
      assert GoodNode(c.nodes, a.s);
      CallChanged(d.nodes, c.beats[b], d.beats[b], a.s);
    } else if a.HearAppend? && a.b == b {
      assert GoodCall(c.beats[b], c.beats[b].calls[a.s]);
      CallChanged(d.nodes, c.beats[b], d.beats[b], a.s);
    }
  }

  lemma CallChanged(nodes: seq<Node>, b: Beat, b': Beat, s: nat)
    requires GoodBeat(nodes, b) && s < |b.calls| && !b.calls[s].LeaderSlot? && |b'.calls| == |b.calls|
    requires b' == b.(calls := b.calls[s := b'.calls[s]], appendNums := b'.appendNums, majorities := b'.majorities)
    requires GoodCall(b, b'.calls[s]) && !b'.calls[s].LeaderSlot?
    ensures GoodBeat(nodes, b')
  {
    forall k | 0 <= k < |b'.calls| ensures GoodCall(b', b'.calls[k]) {
      assert GoodCall(b, b.calls[k]);
    }
  }

  lemma NewBeatGood(c: State, i: nat)
    requires Structured(c) && Enabled(c, DoHeartBeat(i))
    ensures GoodNode(c.nodes, i) && GoodBeat(c.nodes, NewBeat(c.nodes[i]))
  {
    assert GoodNode(c.nodes, i);
    var s := c.nodes[i];
    LastIndexSound(s);
    forall k: nat | k < s.peers
      ensures GoodCall(NewBeat(s), NewBeat(s).calls[k]) && (NewBeat(s).calls[k].LeaderSlot? <==> k == s.me)
    {
      BuiltCallGood(s, k);
    }
  }

  lemma SnapKept(c: State, a: Action, k: nat)
    requires Structured(c) && Enabled(c, a) && k < |Step(c, a).snaps|
    ensures GoodSnap(c.nodes, Step(c, a).snaps[k])
  {
    assert k < |c.snaps| ==> GoodSnap(c.nodes, c.snaps[k]);
    if a.BuildSnap? { assert GoodNode(c.nodes, c.snaps[a.k].leader); }
    if a.DoHeartBeat? { assert GoodNode(c.nodes, a.i); }
  }

  lemma StructureKept(c: State, a: Action)
    requires Structured(c) && Enabled(c, a)
    ensures Structured(Step(c, a))
  {
    var d := Step(c, a);
    StepGrows(c, a);
    forall e | 0 <= e < |d.elections| ensures GoodElection(d.nodes, d.elections[e]) {
      ElectionKept(c, a, e);
    }
    forall b | 0 <= b < |d.beats| ensures GoodBeat(d.nodes, d.beats[b]) {
      if b < |c.beats| { OldBeatKept(c, a, b); } else { NewBeatGood(c, a.i); }
    }
    forall k | 0 <= k < |d.snaps| ensures GoodSnap(d.nodes, d.snaps[k]) {
      SnapKept(c, a, k);
    }
  }

  lemma InitStructured(n: nat)
    requires n >= 1
    ensures Structured(Init(n))
  {}

  lemma LastAction(n: nat, run: seq<State>, t: nat) returns (a: Action)
    requires IsRun(n, run) && 0 < t < |run|
    ensures Structured(run[t - 1]) && Enabled(run[t - 1], a) && run[t] == Step(run[t - 1], a)
  {
    assert IsStep(run[t - 1], run[t - 1 + 1]);
    a :| Enabled(run[t - 1], a) && run[t] == Step(run[t - 1], a);
  }

  /** Node invariant over every run: no action of any run is stopped by a missing structure, and the
      indices and terms of every node only grow. */
  lemma {:induction false} RunStructured(n: nat, run: seq<State>, t: nat)
    requires IsRun(n, run) && t < |run|
    ensures Structured(run[t]) && |run[t].nodes| == n
    ensures forall u :: 0 <= u <= t ==> NodesGrow(run[u].nodes, run[t].nodes)
  {
    if t == 0 {
      InitStructured(n);
    } else {
      RunStructured(n, run, t - 1);
      var a := LastAction(n, run, t);
      StructureKept(run[t - 1], a);
      StepGrows(run[t - 1], a);
      forall u | 0 <= u <= t ensures NodesGrow(run[u].nodes, run[t].nodes) {
        if u < t { GrowsTransitive(run[u].nodes, run[t - 1].nodes, run[t].nodes); }
      }
    }
  }

  lemma GrowsTransitive(l: seq<Node>, m: seq<Node>, n: seq<Node>)
    requires NodesGrow(l, m) && NodesGrow(m, n)
    ensures NodesGrow(l, n)
  {
    forall i | 0 <= i < |l| ensures Grows(l[i], n[i]) {
      assert Grows(l[i], m[i]) && Grows(m[i], n[i]);
    }
  }
}
