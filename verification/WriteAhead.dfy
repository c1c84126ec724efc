/** What the persister was last given, at any time between two locked sections of a run. */
module WriteAhead {
  import opened KvTypes
  import opened RaftNode
  import opened Cluster
  import opened ElectionSafety

  /** The saved record has the log and the snapshot marker of memory and no later term, and the term
      and vote of memory whenever memory holds a vote. */
  predicate Durable(s: Node) {
    && s.saved.logs == s.logs && s.saved.snapIndex == s.snapIndex && s.saved.snapTerm == s.snapTerm
    && s.saved.term <= s.term
    && (s.votedFor != NOBODY ==> s.saved.term == s.term && s.saved.votedFor == s.votedFor)
  }

  /** A granted vote is in the record, and binds it as it binds memory. */
  ghost predicate VoteSaved(nodes: seq<Node>, e: Election, s: nat)
    requires s < |nodes|
  {
    Granted(e, s) ==>
      && e.args.term <= nodes[s].saved.term
      && (e.args.term == nodes[s].saved.term ==> nodes[s].saved.votedFor == e.candidate)
  }

  ghost predicate SavedInv(c: State) {
    && (forall i {:trigger Durable(c.nodes[i])} :: 0 <= i < |c.nodes| ==> Durable(c.nodes[i]))
    && (forall e, s {:trigger VoteSaved(c.nodes, c.elections[e], s)} ::
          0 <= e < |c.elections| && 0 <= s < |c.nodes| ==> VoteSaved(c.nodes, c.elections[e], s))
  }

  /** A locked section saves the state it ends with, or nothing. */
  predicate SavesAllOrNothing(s: Node, t: Node) {
    t.saved == s.saved || t.saved == RecordOf(t)
  }

  lemma VoteHandlersSave(s: Node, a: RequestVoteArgs, reply: RequestVoteReply, votedNum: int)
    requires Durable(s)
    ensures Durable(Elect(s)) && SavesAllOrNothing(s, Elect(s))
    ensures var t := HandleRequestVote(s, a).node; Durable(t) && t.saved == RecordOf(t)
    ensures var t := HandleVoteReply(s, reply, votedNum).node; Durable(t) && SavesAllOrNothing(s, t)
  {}

  lemma AppendHandlerSaves(s: Node, a: AppendEntriesArgs)
    requires Durable(s) && Sound(s) && Contiguous(a)
    ensures var t := HandleAppend(s, a).node; Durable(t) && SavesAllOrNothing(s, t)
  {}

  lemma AppendReplySaves(s: Node, a: AppendEntriesArgs, server: nat, reply: AppendEntriesReply, appendNums: int)
    requires Durable(s) && Sound(s) && server < s.peers
    ensures var t := HandleAppendReply(s, server, a, reply, appendNums).node; Durable(t) && SavesAllOrNothing(s, t)
  {}

  lemma SnapshotHandlersSave(s: Node, a: InstallSnapshotArgs, server: nat, reply: InstallSnapshotReply,
                             index: int, data: Image)
    requires Durable(s) && Sound(s) && SaneSnapshot(a) && server < s.peers
    ensures var t := HandleInstall(s, a).node; Durable(t) && SavesAllOrNothing(s, t)
    ensures var t := HandleInstallReply(s, server, a, reply); Durable(t) && SavesAllOrNothing(s, t)
    ensures var t := Compact(s, index, data); Durable(t) && SavesAllOrNothing(s, t)
  {}

  lemma ActorSaves(c: State, a: Action, i: nat)
    requires Structured(c) && Enabled(c, a) && i == Actor(c, a) && i < |c.nodes| && Durable(c.nodes[i])
    ensures Durable(Step(c, a).nodes[i]) && SavesAllOrNothing(c.nodes[i], Step(c, a).nodes[i])
    ensures a.AnswerVote? ==> Step(c, a).nodes[i].saved == RecordOf(Step(c, a).nodes[i])
  {
    var s := c.nodes[i];
    assert GoodNode(c.nodes, i);
    if a.DoElection? || a.AnswerVote? || a.HearVote? {
      VoteActorSaves(c, a, i);
    } else if a.AnswerAppend? {
      var b := c.beats[a.b];
      assert GoodBeat(c.nodes, b) && GoodCall(b, b.calls[a.s]);
      AppendHandlerSaves(s, b.calls[a.s].args);
    } else if a.HearAppend? {
      HearAppendSaves(c, a.b, a.s);
    } else if a.AnswerSnap? || a.HearSnap? {
      SnapActorSaves(c, a, i);
    }
  }

  lemma VoteActorSaves(c: State, a: Action, i: nat)
    requires Structured(c) && Enabled(c, a) && i == Actor(c, a) && i < |c.nodes| && Durable(c.nodes[i])
    requires a.DoElection? || a.AnswerVote? || a.HearVote?
    ensures Durable(Step(c, a).nodes[i]) && SavesAllOrNothing(c.nodes[i], Step(c, a).nodes[i])
    ensures a.AnswerVote? ==> Step(c, a).nodes[i].saved == RecordOf(Step(c, a).nodes[i])
  {
    var request := if a.AnswerVote? then c.elections[a.e].args else RequestVoteArgs(0, 0, 0, 0);
    var reply := if a.HearVote? then c.elections[a.e].calls[a.s].reply else RequestVoteReply(0, false, 0);
    VoteHandlersSave(c.nodes[i], request, reply, if a.HearVote? then c.elections[a.e].votedNum else 0);
  }

  lemma HearAppendSaves(c: State, b: nat, s: nat)
    requires Structured(c) && Enabled(c, HearAppend(b, s)) && Durable(c.nodes[c.beats[b].leader])
    ensures var i := c.beats[b].leader;
            Durable(StepHearAppend(c, b, s).nodes[i]) && SavesAllOrNothing(c.nodes[i], StepHearAppend(c, b, s).nodes[i])
  {
    var beat := c.beats[b];
    assert GoodBeat(c.nodes, beat) && GoodCall(beat, beat.calls[s]) && GoodNode(c.nodes, beat.leader);
    AppendReplySaves(c.nodes[beat.leader], beat.calls[s].args, s, beat.calls[s].reply, beat.appendNums);
  }

  lemma SnapActorSaves(c: State, a: Action, i: nat)
    requires Structured(c) && Enabled(c, a) && i == Actor(c, a) && i < |c.nodes| && Durable(c.nodes[i])
    requires a.AnswerSnap? || a.HearSnap?
    ensures Durable(Step(c, a).nodes[i]) && SavesAllOrNothing(c.nodes[i], Step(c, a).nodes[i])
  {
    var t := c.snaps[a.k];
    assert GoodSnap(c.nodes, t) && GoodNode(c.nodes, i);
    SnapshotHandlersSave(c.nodes[i], t.args, t.server,
                         if a.HearSnap? then t.reply else InstallSnapshotReply(0), 0, NoImage);
  }

  /** New grants appear only in AnswerVote, at the voter, whose term the vote then belongs to. */
  lemma GrantsFrom(c: State, a: Action, e: nat, s: nat)
    requires Structured(c) && Enabled(c, a) && ElectionInv(c.nodes, c.elections)
    requires e < |Step(c, a).elections| && Granted(Step(c, a).elections[e], s) && s < |c.nodes|
    ensures || (e < |c.elections| && Granted(c.elections[e], s)
                && c.elections[e].args == Step(c, a).elections[e].args
                && c.elections[e].candidate == Step(c, a).elections[e].candidate)
            || (a.AnswerVote? && a.s == s)
            || (a.DoElection? && a.i == s && Step(c, a).nodes[s].saved == RecordOf(Step(c, a).nodes[s]))
  {
    if a.HearVote? { assert CountsVoters(c.elections[a.e]); }
    if a.DoElection? { assert GoodNode(c.nodes, a.i); }
  }

  lemma VoteSavedKept(c: State, a: Action, e: nat, s: nat)
    requires Structured(c) && Enabled(c, a) && ElectionInv(c.nodes, c.elections) && SavedInv(c)
    requires e < |Step(c, a).elections| && s < |c.nodes| == |Step(c, a).nodes|
    requires VoteBinds(Step(c, a).nodes, Step(c, a).elections[e], s)
    requires s != Actor(c, a) ==> Step(c, a).nodes[s] == c.nodes[s]
    ensures VoteSaved(Step(c, a).nodes, Step(c, a).elections[e], s)
  {
    var d := Step(c, a);
    if Granted(d.elections[e], s) {
      GrantsFrom(c, a, e, s);
      if s == Actor(c, a) { ActorSaves(c, a, s); }
      if d.nodes[s].saved != RecordOf(d.nodes[s]) {
        assert VoteSaved(c.nodes, c.elections[e], s);
      }
    }
  }

  lemma SavedKept(c: State, a: Action)
    requires Structured(c) && Enabled(c, a) && ElectionInv(c.nodes, c.elections) && SavedInv(c)
    ensures SavedInv(Step(c, a))
  {
    var d := Step(c, a);
    ActorOnly(c, a);
    ActorSaves(c, a, Actor(c, a));
    ElectionsStep(c, a);
    forall e, s | 0 <= e < |d.elections| && 0 <= s < |d.nodes| ensures VoteSaved(d.nodes, d.elections[e], s) {
      assert VoteBinds(d.nodes, d.elections[e], s);
      VoteSavedKept(c, a, e, s);
    }
  }

  /** Write-ahead record, over every run: although the step-down in sendAppendEntries saves nothing,
      the record always has the log, the marker and every vote that was ever granted. */
  lemma {:induction false} RunSaved(n: nat, run: seq<State>, t: nat)
    requires IsRun(n, run) && t < |run|
    ensures SavedInv(run[t])
  {
    if t > 0 {
      RunSaved(n, run, t - 1);
      RunElections(n, run, t - 1);
      var a := LastAction(n, run, t);
      SavedKept(run[t - 1], a);
    }
  }
}
