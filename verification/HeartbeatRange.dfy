/** In the runs in which no message leaves a stale tail, no leader's next index for a peer lies past the
    end of its log: the heartbeat reads in range. */
module HeartbeatRange {
  import opened RaftNode
  import opened Cluster
  import opened ElectionSafety
  import opened EntryIdentity
  import opened CommitQuorum
  import opened LogPaths
  import opened LeaderCompleteness
  import opened StateMachineSafety
  import opened LogReads

  // ----------------------------------------------------------------- invariant

  /** A leader's indices for its peers are within its log. */
  predicate Within(s: Node) {
    s.status == Leader ==>
      && (forall i {:trigger s.nextIndex[i]} :: 0 <= i < |s.nextIndex| ==> s.nextIndex[i] <= Top(s) + 1)
      && (forall i {:trigger s.matchIndex[i]} :: 0 <= i < |s.matchIndex| ==> s.matchIndex[i] <= Top(s))
  }

  /** A rejection that still counts in the round's term asks for nothing past the leader's log. */
  predicate HintWithin(h: Past, term: int, k: AppendCall) {
    k.AppendReplied? && !k.reply.success && k.reply.updateNextIndex != KEEP_NEXT_INDEX ==>
      k.reply.term == term && term in h.leads && k.reply.updateNextIndex <= |h.leads[term].log| + 1
  }

  predicate BeatWithin(h: Past, b: Beat) {
    forall s {:trigger HintWithin(h, b.term, b.calls[s])} :: 0 <= s < |b.calls| ==> HintWithin(h, b.term, b.calls[s])
  }

  /** A snapshot on its way ends within the log of its sender. */
  predicate SnapWithin(nodes: seq<Node>, k: SnapCall) {
    (k.SnapPending? || k.SnapReplied?) && k.leader < |nodes| ==> k.args.lastIndex <= Top(nodes[k.leader])
  }

  ghost predicate RangeInv(c: State, h: Past) {
    && (forall i {:trigger Within(c.nodes[i])} :: 0 <= i < |c.nodes| ==> Within(c.nodes[i]))
    && (forall b {:trigger BeatWithin(h, c.beats[b])} :: 0 <= b < |c.beats| ==> BeatWithin(h, c.beats[b]))
    && (forall k {:trigger SnapWithin(c.nodes, c.snaps[k])} :: 0 <= k < |c.snaps| ==> SnapWithin(c.nodes, c.snaps[k]))
  }

  // --------------------------------------------------------------------- hints

  /** What a follower asks for is within the leader's log: its own log if that is shorter, the end of its
      snapshot, which the leader has, or an index at or before the previous one. */
  lemma HintBound(h: Past, s: Node, a: AppendEntriesArgs)
    requires Sound(s) && Contiguous(a) && ArgsPath(h, a) && (a.term >= s.term ==>
        Anchor(s, Path(h, s.snapTerm, s.snapIndex), h.leads[a.term].log))
    ensures var r := HandleAppend(s, a).reply;
            !r.success && r.updateNextIndex != KEEP_NEXT_INDEX ==>
              r.term == a.term && r.updateNextIndex <= |h.leads[a.term].log| + 1
  {}

  lemma AnsweredHint(c: State, h: Past, b: nat, s: nat)
    requires Structured(c) && Enabled(c, AnswerAppend(b, s)) && BeatPath(h, c.beats[b]) && NodeAnchored(h, c.nodes[s])
    ensures HintWithin(h, c.beats[b].term, StepAnswerAppend(c, b, s).beats[b].calls[s])
  {
    assert GoodBeat(c.nodes, c.beats[b]) && GoodCall(c.beats[b], c.beats[b].calls[s]) && GoodNode(c.nodes, s);
    HintBound(h, c.nodes[s], c.beats[b].calls[s].args);
  }

  lemma HintMore(h: Past, h': Past, term: int, k: AppendCall)
    requires HintWithin(h, term, k) && PastExtends(h, h')
    ensures HintWithin(h', term, k)
  {
    if term in h.leads { assert LeadExtends(h.leads[term], h'.leads[term], term); }
  }

  lemma OldHint(c: State, a: Action, b: nat, s: nat)
    requires Structured(c) && Enabled(c, a) && b < |c.beats| && s < |c.beats[b].calls|
    requires !(a.AnswerAppend? && a.b == b && a.s == s)
    ensures b < |Step(c, a).beats| && s < |Step(c, a).beats[b].calls|
    ensures Step(c, a).beats[b].calls[s].AppendReplied? ==> Step(c, a).beats[b].calls[s] == c.beats[b].calls[s]
  {}

  lemma BeatWithinKept(c: State, h: Past, a: Action, h': Past, b: nat)
    requires Structured(c) && PathInv(c, h) && Anchored(c, h) && RangeInv(c, h) && PastExtends(h, h')
    requires Enabled(c, a) && b < |Step(c, a).beats|
    ensures BeatWithin(h', Step(c, a).beats[b])
  {
    var b' := Step(c, a).beats[b];
    if b < |c.beats| {
      RoundsLast(c, a, b);
      assert BeatWithin(h, c.beats[b]);
      forall s | 0 <= s < |b'.calls| ensures HintWithin(h', b'.term, b'.calls[s]) {
        if a.AnswerAppend? && a.b == b && a.s == s {
          assert BeatPath(h, c.beats[b]) && NodeAnchored(h, c.nodes[s]);
          AnsweredHint(c, h, b, s);
          HintMore(h, h', b'.term, b'.calls[s]);
        } else {
          OldHint(c, a, b, s);
          assert HintWithin(h, c.beats[b].term, c.beats[b].calls[s]);
          HintMore(h, h', b'.term, c.beats[b].calls[s]);
        }
      }
    } else {
      NewBeatWithin(c, h', a.i);
    }
  }

  lemma NewBeatWithin(c: State, h: Past, i: nat)
    requires Structured(c) && Enabled(c, DoHeartBeat(i))
    ensures GoodNode(c.nodes, i) && BeatWithin(h, NewBeat(c.nodes[i]))
  {
    assert GoodNode(c.nodes, i);
    forall s | 0 <= s < |NewBeat(c.nodes[i]).calls|
        ensures HintWithin(h, NewBeat(c.nodes[i]).term, NewBeat(c.nodes[i]).calls[s]) {
      assert NewBeat(c.nodes[i]).calls[s] == CallFor(DispatchTo(c.nodes[i], s));
    }
  }

  // --------------------------------------------------------------------- nodes

  lemma ReplyWithin(s: Node, server: nat, a: AppendEntriesArgs, reply: AppendEntriesReply, appendNums: int)
    requires Sound(s) && server < s.peers && Within(s) && EndIndex(a) <= Top(s)
    requires s.status == Leader && reply.term == s.term && !reply.success ==>
               reply.updateNextIndex == KEEP_NEXT_INDEX || reply.updateNextIndex <= Top(s) + 1
    ensures Within(HandleAppendReply(s, server, a, reply, appendNums).node)
  {}

  lemma HeardWithin(c: State, h: Past, b: nat, s: nat)
    requires Structured(c) && Enabled(c, HearAppend(b, s)) && Within(c.nodes[c.beats[b].leader])
    requires BeatWithin(h, c.beats[b]) && NodePath(h, c.nodes[c.beats[b].leader])
    ensures Within(StepHearAppend(c, b, s).nodes[c.beats[b].leader])
  {
    var beat, i := c.beats[b], c.beats[b].leader;
    assert GoodBeat(c.nodes, beat) && GoodCall(beat, beat.calls[s]) && GoodNode(c.nodes, i);
    assert HintWithin(h, beat.term, beat.calls[s]);
    ReplyWithin(c.nodes[i], s, beat.calls[s].args, beat.calls[s].reply, beat.appendNums);
  }

  lemma HeardSnapWithin(c: State, k: nat)
    requires Structured(c) && Enabled(c, HearSnap(k)) && Within(c.nodes[c.snaps[k].leader])
    requires SnapWithin(c.nodes, c.snaps[k])
    ensures Within(StepHearSnap(c, k).nodes[c.snaps[k].leader])
  {
    assert GoodSnap(c.nodes, c.snaps[k]) && GoodNode(c.nodes, c.snaps[k].leader);
  }

  lemma WinnerWithin(s: Node, reply: RequestVoteReply, votedNum: int)
    requires Sound(s) && Within(s)
    ensures Within(HandleVoteReply(s, reply, votedNum).node)
  {
    LastIndexSound(s);
  }

  predicate KeepsIndices(a: Action) {
    !a.HearVote? && !a.HearAppend? && !a.HearSnap?
  }

  /** All other sections leave a leader's indices alone and do not shorten its log. */
  lemma OtherWithin(c: State, a: Action, i: nat)
    requires Structured(c) && Enabled(c, a) && KeepsIndices(a) && i == Actor(c, a) && i < |c.nodes|
    requires Within(c.nodes[i])
    ensures Within(Step(c, a).nodes[i])
  {
    ActorGrows(c, a);
    SameIndices(c, a, i);
  }

  lemma SameIndices(c: State, a: Action, i: nat)
    requires Structured(c) && Enabled(c, a) && KeepsIndices(a) && i == Actor(c, a) && i < |c.nodes|
    ensures Step(c, a).nodes[i].nextIndex == c.nodes[i].nextIndex
    ensures Step(c, a).nodes[i].matchIndex == c.nodes[i].matchIndex
  {
    assert GoodNode(c.nodes, i);
    if a.AnswerAppend? { AnsweredIndices(c, a.b, a.s); }
    if a.AnswerSnap? { InstalledIndices(c, a.k); }
  }

  lemma AnsweredIndices(c: State, b: nat, s: nat)
    requires Structured(c) && Enabled(c, AnswerAppend(b, s))
    ensures var t := StepAnswerAppend(c, b, s).nodes[s];
            t.nextIndex == c.nodes[s].nextIndex && t.matchIndex == c.nodes[s].matchIndex
  {
    assert GoodBeat(c.nodes, c.beats[b]) && GoodCall(c.beats[b], c.beats[b].calls[s]) && GoodNode(c.nodes, s);
  }

  lemma InstalledIndices(c: State, k: nat)
    requires Structured(c) && Enabled(c, AnswerSnap(k))
    ensures var i := c.snaps[k].server; var t := StepAnswerSnap(c, k).nodes[i];
            t.nextIndex == c.nodes[i].nextIndex && t.matchIndex == c.nodes[i].matchIndex
  {
    assert GoodSnap(c.nodes, c.snaps[k]) && GoodNode(c.nodes, c.snaps[k].server);
  }

  lemma ActorWithin(c: State, h: Past, a: Action, i: nat)
    requires Structured(c) && PathInv(c, h) && RangeInv(c, h) && Enabled(c, a) && i == Actor(c, a) && i < |c.nodes|
    ensures Within(Step(c, a).nodes[i])
  {
    assert Within(c.nodes[i]) && NodePath(h, c.nodes[i]);
    if KeepsIndices(a) {
      OtherWithin(c, a, i);
    } else if a.HearVote? {
      assert GoodNode(c.nodes, i);
      WinnerWithin(c.nodes[i], c.elections[a.e].calls[a.s].reply, c.elections[a.e].votedNum);
    } else if a.HearAppend? {
      assert BeatWithin(h, c.beats[a.b]);
      HeardWithin(c, h, a.b, a.s);
    } else {
      assert SnapWithin(c.nodes, c.snaps[a.k]);
      HeardSnapWithin(c, a.k);
    }
  }

  lemma SnapWithinKept(c: State, a: Action, k: nat)
    requires Structured(c) && Enabled(c, a) && k < |Step(c, a).snaps| && NodesGrow(c.nodes, Step(c, a).nodes)
    requires k < |c.snaps| ==> SnapWithin(c.nodes, c.snaps[k])
    ensures SnapWithin(Step(c, a).nodes, Step(c, a).snaps[k])
  {
    var d := Step(c, a);
    if a.DoHeartBeat? { assert GoodNode(c.nodes, a.i); }
    if k < |c.snaps| && !c.snaps[k].SnapDone? {
      assert GoodSnap(c.nodes, c.snaps[k]) && GoodNode(c.nodes, c.snaps[k].leader);
      assert Grows(c.nodes[c.snaps[k].leader], d.nodes[c.snaps[k].leader]);
    }
  }

  lemma RangeKept(c: State, h: Past, acks: set<Ack>, a: Action, h': Past)
    requires RaftInv(c, h, acks) && RangeInv(c, h) && Enabled(c, a) && PastExtends(h, h')
    ensures RangeInv(Step(c, a), h')
  {
    var d := Step(c, a);
    InvAnchored(c, h, acks);
    ActorOnly(c, a);
    StepGrows(c, a);
    ActorWithin(c, h, a, Actor(c, a));
    forall i | 0 <= i < |d.nodes| ensures Within(d.nodes[i]) {
      if i != Actor(c, a) { assert Within(c.nodes[i]); }
    }
    forall b | 0 <= b < |d.beats| ensures BeatWithin(h', d.beats[b]) { BeatWithinKept(c, h, a, h', b); }
    forall k | 0 <= k < |d.snaps| ensures SnapWithin(d.nodes, d.snaps[k]) {
      assert k < |c.snaps| ==> SnapWithin(c.nodes, c.snaps[k]);
      SnapWithinKept(c, a, k);
    }
  }

  // -------------------------------------------------------------- over all runs

  lemma {:induction false} RunRange(n: nat, run: seq<State>, t: nat) returns (h: Past, acks: set<Ack>)
    requires IsCleanRun(n, run) && t < |run|
    ensures RaftInv(run[t], h, acks) && QuorumInv(run[t]) && RangeInv(run[t], h) && |run[t].nodes| == n
    decreases t
  {
    if t == 0 {
      StartRaft(n);
      h, acks := Past(map[], map[]), {};
    } else {
      h, acks := RunRange(n, run, t - 1);
      h, acks := NextRange(n, run, t, h, acks);
    }
  }

  lemma NextRange(n: nat, run: seq<State>, t: nat, g: Past, acks: set<Ack>) returns (h: Past, more: set<Ack>)
    requires IsCleanRun(n, run) && 0 < t < |run|
    requires RaftInv(run[t - 1], g, acks) && QuorumInv(run[t - 1]) && RangeInv(run[t - 1], g)
    ensures RaftInv(run[t], h, more) && QuorumInv(run[t]) && RangeInv(run[t], h) && |run[t].nodes| == |run[t - 1].nodes|
  {
    var a := LastClean(n, run, t);
    RaftInvKept(run[t - 1], g, acks, a);
    h, more := Advance(run[t - 1], g, a), AdvanceAcks(run[t - 1], acks, a);
    RangeKept(run[t - 1], g, acks, a, h);
  }

  /** In clean runs the heartbeat of a leader, the way it is written, reads nothing out of range: the
      condition on the heartbeat action never holds one back. */
  lemma LeadersCanBeat(n: nat, run: seq<State>, t: nat, i: nat)
    requires IsCleanRun(n, run) && t < |run| && i < |run[t].nodes| && run[t].nodes[i].status == Leader
    ensures Sound(run[t].nodes[i]) && CanBeat(run[t].nodes[i])
    ensures BeatAsWritten(run[t].nodes[i], 0) == InRange(Round(run[t].nodes[i]))
  {
    var h, acks := RunRange(n, run, t);
    assert Within(run[t].nodes[i]) && GoodNode(run[t].nodes, i);
    BeatInRange(run[t].nodes[i]);
  }
}
