/** A leader's match indices over a run: they never fall while it leads, but for a late reply to a snapshot. */
module MatchIndex {
  import opened KvTypes
  import opened RaftNode
  import opened Cluster
  import opened ElectionSafety
  import opened EntryIdentity
  import opened CommitQuorum
  import opened AppendHandlers
  import opened SnapshotHandlers

  /** The node leads the same term in both states. */
  predicate LeadsOn(s: Node, t: Node) {
    s.status == Leader && t.status == Leader && s.term == t.term
  }

  predicate MatchKept(s: Node, t: Node) {
    |t.matchIndex| == |s.matchIndex| && forall j :: 0 <= j < |s.matchIndex| ==> t.matchIndex[j] >= s.matchIndex[j]
  }

  /** The action is the reply of server j to a snapshot of this term that ends below its match index. */
  predicate LateSnapshot(c: State, a: Action, i: nat, j: nat)
    requires Structured(c) && Enabled(c, a) && i < |c.nodes| && j < |c.nodes[i].matchIndex|
  {
    && a.HearSnap? && c.snaps[a.k].leader == i && c.snaps[a.k].server == j
    && c.snaps[a.k].args.term == c.nodes[i].term && c.snaps[a.k].args.lastIndex < c.nodes[i].matchIndex[j]
  }

  /** A leader does not win again in its term, so its indices are not reset. */
  lemma LeaderHearsVote(c: State, e: nat, s: nat)
    requires SafeSoFar(c) && Enabled(c, HearVote(e, s)) && c.nodes[c.elections[e].candidate].status == Leader
    ensures var i := c.elections[e].candidate;
            && i < |StepHearVote(c, e, s).nodes|
            && StepHearVote(c, e, s).nodes[i].matchIndex == c.nodes[i].matchIndex
  {
    var el := c.elections[e];
    if HandleVoteReply(c.nodes[el.candidate], el.calls[s].reply, el.votedNum).won {
      WinIsFirst(c, e, s, el.candidate);
    }
  }

  lemma LeaderHearsAppend(c: State, b: nat, s: nat)
    requires Structured(c) && Enabled(c, HearAppend(b, s))
    ensures var i := c.beats[b].leader;
            i < |StepHearAppend(c, b, s).nodes| && MatchKept(c.nodes[i], StepHearAppend(c, b, s).nodes[i])
  {
    var beat := c.beats[b];
    assert GoodBeat(c.nodes, beat) && GoodNode(c.nodes, beat.leader);
    MatchNeverFalls(c.nodes[beat.leader], s, beat.calls[s].args, beat.calls[s].reply, beat.appendNums);
  }

  lemma LeaderHearsSnap(c: State, k: nat, j: nat)
    requires Structured(c) && Enabled(c, HearSnap(k)) && j < |c.nodes[c.snaps[k].leader].matchIndex|
    requires LeadsOn(c.nodes[c.snaps[k].leader], StepHearSnap(c, k).nodes[c.snaps[k].leader])
    ensures var i := c.snaps[k].leader; var t := StepHearSnap(c, k).nodes[i];
            && |t.matchIndex| == |c.nodes[i].matchIndex|
            && (t.matchIndex[j] < c.nodes[i].matchIndex[j] <==> LateSnapshot(c, HearSnap(k), i, j))
  {
    var call := c.snaps[k];
    assert GoodSnap(c.nodes, call) && GoodNode(c.nodes, call.leader);
    InstallHeard(c.nodes[call.leader], call.server, call.args, call.reply);
  }

  /** The other sections of a node that leads on leave the indices alone. */
  lemma QuietMatch(c: State, a: Action, i: nat)
    requires Structured(c) && Enabled(c, a) && i == Actor(c, a) && i < |c.nodes| == |Step(c, a).nodes|
    requires LeadsOn(c.nodes[i], Step(c, a).nodes[i]) && !a.HearVote? && !a.HearAppend? && !a.HearSnap?
    ensures Step(c, a).nodes[i].matchIndex == c.nodes[i].matchIndex
  {
    assert GoodNode(c.nodes, i);
    assert a.AnswerSnap? ==> GoodSnap(c.nodes, c.snaps[a.k]);
  }

  /** While a node leads a term, the match index of a peer falls in a step if and only if the step is a late
      reply of that peer to a snapshot that ends below it. */
  lemma MatchFallsIff(n: nat, run: seq<State>, t: nat, a: Action, i: nat, j: nat)
    requires IsRun(n, run) && t < |run| && Structured(run[t]) && Enabled(run[t], a)
    requires i < |run[t].nodes| == |Step(run[t], a).nodes| && j < |run[t].nodes[i].matchIndex|
    requires LeadsOn(run[t].nodes[i], Step(run[t], a).nodes[i])
    ensures |Step(run[t], a).nodes[i].matchIndex| == |run[t].nodes[i].matchIndex|
    ensures Step(run[t], a).nodes[i].matchIndex[j] < run[t].nodes[i].matchIndex[j] <==> LateSnapshot(run[t], a, i, j)
  {
    RunSafe(n, run, t);
    StepFalls(run[t], a, i, j);
  }

  lemma StepFalls(c: State, a: Action, i: nat, j: nat)
    requires SafeSoFar(c) && Enabled(c, a) && i < |c.nodes| == |Step(c, a).nodes| && j < |c.nodes[i].matchIndex|
    requires LeadsOn(c.nodes[i], Step(c, a).nodes[i])
    ensures var t := Step(c, a).nodes[i];
            && |t.matchIndex| == |c.nodes[i].matchIndex|
            && (t.matchIndex[j] < c.nodes[i].matchIndex[j] <==> LateSnapshot(c, a, i, j))
  {
    ActorOnly(c, a);
    if i == Actor(c, a) {
      if a.HearVote? { LeaderHearsVote(c, a.e, a.s); }
      else if a.HearAppend? { LeaderHearsAppend(c, a.b, a.s); }
      else if a.HearSnap? { LeaderHearsSnap(c, a.k, j); }
      else { QuietMatch(c, a, i); }
    }
  }

  /** The step from c to d may be a late reply of server j to a snapshot. */
  ghost predicate LateStep(c: State, d: State, i: nat, j: nat) {
    && Structured(c) && i < |c.nodes| && j < |c.nodes[i].matchIndex|
    && exists a :: Enabled(c, a) && d == Step(c, a) && LateSnapshot(c, a, i, j)
  }

  /** The node is a leader of one term at time t and at time t + 1, and no late reply comes in between. */
  ghost predicate LeadsPast(run: seq<State>, t: nat, i: nat, j: nat) {
    && t + 1 < |run| && i < |run[t].nodes| && i < |run[t + 1].nodes|
    && LeadsOn(run[t].nodes[i], run[t + 1].nodes[i]) && !LateStep(run[t], run[t + 1], i, j)
  }

  ghost predicate MatchRises(run: seq<State>, t: nat, i: nat, j: nat) {
    && t + 1 < |run| && i < |run[t].nodes| && i < |run[t + 1].nodes|
    && j < |run[t].nodes[i].matchIndex| == |run[t + 1].nodes[i].matchIndex|
    && run[t].nodes[i].matchIndex[j] <= run[t + 1].nodes[i].matchIndex[j]
  }

  lemma NextRises(n: nat, run: seq<State>, t: nat, i: nat, j: nat)
    requires IsRun(n, run) && LeadsPast(run, t, i, j) && j < n
    ensures MatchRises(run, t, i, j)
  {
    RunStructured(n, run, t);
    assert GoodNode(run[t].nodes, i);
    var a := LastAction(n, run, t + 1);
    MatchFallsIff(n, run, t, a, i, j);
  }

  lemma {:induction false} RisesOn(run: seq<State>, t: nat, u: nat, i: nat, j: nat)
    requires t < u < |run|
    requires forall v: nat {:trigger MatchRises(run, v, i, j)} :: t <= v < u ==> MatchRises(run, v, i, j)
    ensures i < |run[t].nodes| && i < |run[u].nodes|
    ensures j < |run[t].nodes[i].matchIndex| == |run[u].nodes[i].matchIndex|
    ensures run[t].nodes[i].matchIndex[j] <= run[u].nodes[i].matchIndex[j]
    decreases u
  {
    assert MatchRises(run, u - 1, i, j);
    if t < u - 1 { RisesOn(run, t, u - 1, i, j); }
  }

  /** So over a whole stretch of a run in which a node leads one term, its match index for a peer never falls,
      if no late reply of that peer to a snapshot is heard. */
  lemma MatchStays(n: nat, run: seq<State>, t: nat, u: nat, i: nat, j: nat)
    requires IsRun(n, run) && t < u < |run| && j < n
    requires forall v: nat {:trigger LeadsPast(run, v, i, j)} :: t <= v < u ==> LeadsPast(run, v, i, j)
    ensures i < |run[t].nodes| && i < |run[u].nodes|
    ensures j < |run[t].nodes[i].matchIndex| == |run[u].nodes[i].matchIndex|
    ensures run[t].nodes[i].matchIndex[j] <= run[u].nodes[i].matchIndex[j]
  {
    forall v: nat | t <= v < u ensures MatchRises(run, v, i, j) {
      assert LeadsPast(run, v, i, j);
      NextRises(n, run, v, i, j);
    }
    RisesOn(run, t, u, i, j);
  }

  /** Such a reply does lower it: the leader has heard that peer 1 has five entries, and then that it has
      the snapshot of the first three. */
  lemma LateSnapshotLowers()
    ensures var e := Op("Put", "k", "v", "c", 1);
            var l := Node(0, 3, 1, 0, Leader, [Entry(4, 1, e), Entry(5, 1, e)], 5, 5, [6, 6, 6], [0, 5, 5], 3, 1,
                          Record(1, 0, 3, 1, [Entry(4, 1, e), Entry(5, 1, e)]), NoImage);
            && Sound(l)
            && HandleInstallReply(l, 1, BuildSnapshot(l), InstallSnapshotReply(1)).matchIndex == [0, 3, 5]
            && HandleInstallReply(l, 1, BuildSnapshot(l), InstallSnapshotReply(1)).nextIndex == [6, 4, 6]
  {}
}
