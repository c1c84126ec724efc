/** Commit quorum: a leader that commits an index by counting acknowledgements has a majority of
    distinct nodes behind it, each of which keeps the entry for as long as it stays in the term. */
module CommitQuorum {
  import opened KvTypes
  import opened RaftNode
  import opened Cluster
  import opened Quorums
  import opened ElectionSafety
  import opened EntryIdentity

  // --------------------------------------------------------- the terms' ledger

  ghost predicate OnLedger(ledger: map<int, map<int, int>>, term: int, index: int, entryTerm: int) {
    term in ledger && index in ledger[term] && ledger[term][index] == entryTerm
  }

  ghost predicate LedgerGrows(l: map<int, map<int, int>>, m: map<int, map<int, int>>) {
    forall term, index :: term in l && index in l[term] ==> OnLedger(m, term, index, l[term][index])
  }

  ghost predicate TermBacked(nodes: seq<Node>, es: seq<Election>, term: int, indices: set<int>) {
    exists l: nat :: l < |nodes| && Elected(es, l, term) && forall k :: k in indices ==> k <= Top(nodes[l])
  }

  ghost predicate InStep(s: Node, ledger: map<int, map<int, int>>) {
    s.status == Leader ==>
      forall k :: s.snapIndex <= k <= Top(s) ==> OnLedger(ledger, s.term, k, TermAt(s, k))
  }

  ghost predicate ArgsOnLedger(ledger: map<int, map<int, int>>, a: AppendEntriesArgs) {
    && OnLedger(ledger, a.term, a.prevLogIndex, a.prevLogTerm)
    && forall k :: 0 <= k < |a.entries| ==> OnLedger(ledger, a.term, a.entries[k].index, a.entries[k].term)
  }

  ghost predicate BeatOnLedger(ledger: map<int, map<int, int>>, b: Beat) {
    && OnLedger(ledger, b.term, b.endIndex, b.endTerm)
    && forall s :: 0 <= s < |b.calls| && HasArgs(b.calls[s]) ==> ArgsOnLedger(ledger, b.calls[s].args)
  }

  ghost predicate LedgerInv(c: State) {
    && (forall term {:trigger TermBacked(c.nodes, c.elections, term, c.ledger[term].Keys)} ::
          term in c.ledger ==> TermBacked(c.nodes, c.elections, term, c.ledger[term].Keys))
    && (forall i {:trigger InStep(c.nodes[i], c.ledger)} :: 0 <= i < |c.nodes| ==> InStep(c.nodes[i], c.ledger))
    && (forall b {:trigger BeatOnLedger(c.ledger, c.beats[b])} :: 0 <= b < |c.beats| ==>
        BeatOnLedger(c.ledger, c.beats[b]))
  }

  // ------------------------------------------------------------ who holds what

  /** The node has an entry of that term at the index, or a snapshot that reaches it. */
  predicate Holds(s: Node, index: int, entryTerm: int) {
    || index <= s.snapIndex
    || (index <= Top(s) && s.logs[index - s.snapIndex - 1].term == entryTerm)
  }

  /** The entry of that term at the index is in the node's log, or is the last one of its snapshot. */
  predicate HasEntry(s: Node, index: int, entryTerm: int) {
    s.snapIndex <= index <= Top(s) && TermAt(s, index) == entryTerm
  }

  /** The node holds the entry unless it has left the term. */
  predicate Kept(s: Node, term: int, index: int, entryTerm: int) {
    term <= s.term && (term == s.term ==> Holds(s, index, entryTerm))
  }

  predicate Confirms(k: AppendCall) {
    Acking(k) || (k.AppendReplied? && k.reply.success)
  }

  ghost predicate BeatKept(nodes: seq<Node>, b: Beat) {
    forall s :: 0 <= s < |b.calls| && s < |nodes| && Confirms(b.calls[s]) ==>
      Kept(nodes[s], b.term, b.endIndex, b.endTerm)
  }

  predicate CountsAckers(b: Beat) {
    && 0 <= b.appendNums && (|b.calls| > 1 ==> b.appendNums < Quorum(|b.calls|))
    && b.majorities <= 1
    && |Ackers(b)| == b.appendNums + (if b.majorities == 0 then 0 else Quorum(|b.calls|))
  }

  ghost predicate GoodCommit(nodes: seq<Node>, ledger: map<int, map<int, int>>, m: Commit) {
    && Below(m.ackers, |nodes|) && |m.ackers| >= Quorum(|nodes|) && m.leader in m.ackers
    && OnLedger(ledger, m.term, m.index, m.term)
    && forall s :: s in m.ackers && s < |nodes| ==> Kept(nodes[s], m.term, m.index, m.term)
  }

  ghost predicate AckInv(c: State) {
    && (forall b {:trigger CountsAckers(c.beats[b])} :: 0 <= b < |c.beats| ==> CountsAckers(c.beats[b]))
    && (forall b {:trigger BeatKept(c.nodes, c.beats[b])} :: 0 <= b < |c.beats| ==> BeatKept(c.nodes, c.beats[b]))
    && (forall k {:trigger GoodCommit(c.nodes, c.ledger, c.commits[k])} ::
          0 <= k < |c.commits| ==> GoodCommit(c.nodes, c.ledger, c.commits[k]))
  }

  ghost predicate QuorumInv(c: State) {
    SafeSoFar(c) && LedgerInv(c) && AckInv(c)
  }

  // ------------------------------------------------------- the ledger is kept

  /** The first majority of an election is the first of its term. */
  lemma WinIsFirst(c: State, e: nat, s: nat, l: nat)
    requires SafeSoFar(c) && Enabled(c, HearVote(e, s))
    requires var el := c.elections[e]; HandleVoteReply(c.nodes[el.candidate], el.calls[s].reply, el.votedNum).won
    ensures !Elected(c.elections, l, c.nodes[c.elections[e].candidate].term)
    ensures c.nodes[c.elections[e].candidate].term == c.elections[e].args.term
  {
    var d := Step(c, HearVote(e, s));
    var el := c.elections[e];
    ElectionsStep(c, HearVote(e, s));
    assert CountsVoters(el) && CountsVoters(d.elections[e]);
    if Elected(c.elections, l, el.args.term) {
      var f: nat :| f < |c.elections| && c.elections[f].candidate == l && c.elections[f].args.term == el.args.term
                    && c.elections[f].wins >= 1;
      assert CountsVoters(d.elections[f]);
      assert GoodElection(d.nodes, d.elections[e]) && GoodElection(d.nodes, d.elections[f]);
      WonByQuorum(d.elections[e]);
      WonByQuorum(d.elections[f]);
      WinnersAgree(d.nodes, d.elections, e, f);
    }
  }

  lemma NewIndexFresh(c: State, i: nat, term: int)
    requires SafeSoFar(c) && LedgerInv(c) && i < |c.nodes| && c.nodes[i].status == Leader
    requires term == c.nodes[i].term
    ensures term in c.ledger && Top(c.nodes[i]) + 1 !in c.ledger[term]
    ensures forall k :: k in c.ledger[term] ==> k <= Top(c.nodes[i])
  {
    assert GoodNode(c.nodes, i) && InStep(c.nodes[i], c.ledger);
    assert OnLedger(c.ledger, term, c.nodes[i].snapIndex, TermAt(c.nodes[i], c.nodes[i].snapIndex));
    assert TermBacked(c.nodes, c.elections, term, c.ledger[term].Keys);
    var l: nat :| l < |c.nodes| && Elected(c.elections, l, term)
                  && forall k :: k in c.ledger[term].Keys ==> k <= Top(c.nodes[l]);
    OneElected(c, i, l, term);
  }

  lemma WonExtends(c: State, e: nat, s: nat)
    requires SafeSoFar(c) && LedgerInv(c) && Enabled(c, HearVote(e, s))
    ensures LedgerGrows(c.ledger, StepHearVote(c, e, s).ledger)
  {
    var el := c.elections[e];
    var out := HandleVoteReply(c.nodes[el.candidate], el.calls[s].reply, el.votedNum);
    if out.won { TermUnused(c, e, s); }
  }

  lemma StartedExtends(c: State, i: nat, command: Command)
    requires SafeSoFar(c) && LedgerInv(c) && Enabled(c, Submit(i, command))
    ensures LedgerGrows(c.ledger, StepSubmit(c, i, command).ledger)
  {
    assert GoodNode(c.nodes, i);
    LastIndexSound(c.nodes[i]);
    NewIndexFresh(c, i, c.nodes[i].term);
  }

  lemma LedgerUntouched(c: State, a: Action)
    requires Structured(c) && Enabled(c, a) && !a.HearVote? && !a.Submit?
    ensures Step(c, a).ledger == c.ledger
  {}

  lemma LedgerExtended(c: State, a: Action)
    requires SafeSoFar(c) && LedgerInv(c) && Enabled(c, a)
    ensures LedgerGrows(c.ledger, Step(c, a).ledger)
  {
    if a.HearVote? { WonExtends(c, a.e, a.s); }
    else if a.Submit? { StartedExtends(c, a.i, a.command); }
    else { LedgerUntouched(c, a); }
  }

  lemma TermUnused(c: State, e: nat, s: nat)
    requires SafeSoFar(c) && LedgerInv(c) && Enabled(c, HearVote(e, s))
    requires var el := c.elections[e]; HandleVoteReply(c.nodes[el.candidate], el.calls[s].reply, el.votedNum).won
    ensures c.nodes[c.elections[e].candidate].term !in c.ledger
  {
    var term := c.nodes[c.elections[e].candidate].term;
    if term in c.ledger {
      assert TermBacked(c.nodes, c.elections, term, c.ledger[term].Keys);
      var l: nat :| l < |c.nodes| && Elected(c.elections, l, term);
      WinIsFirst(c, e, s, l);
    }
  }

  lemma TermBackedGrows(c: State, d: State, term: int, indices: set<int>)
    requires NodesGrow(c.nodes, d.nodes) && Extends(c.elections, d.elections)
    requires TermBacked(c.nodes, c.elections, term, indices)
    ensures TermBacked(d.nodes, d.elections, term, indices)
  {
    var l: nat :| l < |c.nodes| && Elected(c.elections, l, term) && forall k :: k in indices ==> k <= Top(c.nodes[l]);
    ElectedExtends(c.elections, d.elections, l, term);
    assert Grows(c.nodes[l], d.nodes[l]);
  }

  lemma StartedBacked(c: State, i: nat, command: Command)
    requires SafeSoFar(c) && LedgerInv(c) && Enabled(c, Submit(i, command))
    ensures var d := StepSubmit(c, i, command); var term := c.nodes[i].term;
            term in d.ledger && TermBacked(d.nodes, d.elections, term, d.ledger[term].Keys)
  {
    var d := StepSubmit(c, i, command);
    var term := c.nodes[i].term;
    assert GoodNode(c.nodes, i);
    LastIndexSound(c.nodes[i]);
    NewIndexFresh(c, i, term);
    assert Elected(d.elections, i, term);
    assert forall k :: k in d.ledger[term].Keys ==> k <= Top(d.nodes[i]);
  }

  lemma WonBacked(c: State, e: nat, s: nat)
    requires SafeSoFar(c) && LedgerInv(c) && Enabled(c, HearVote(e, s))
    requires StepHearVote(c, e, s).ledger != c.ledger
    ensures var d := StepHearVote(c, e, s); var term := c.elections[e].args.term;
            && term in d.ledger && d.ledger == c.ledger[term := d.ledger[term]]
            && TermBacked(d.nodes, d.elections, term, d.ledger[term].Keys)
  {
    var i := c.elections[e].candidate;
    assert GoodNode(c.nodes, i);
    var out := HandleVoteReply(c.nodes[i], c.elections[e].calls[s].reply, c.elections[e].votedNum);
    WinIsFirst(c, e, s, i);
    var d := StepHearVote(c, e, s);
    assert d.elections[e].candidate == i && d.elections[e].wins >= 1;
    assert Elected(d.elections, i, c.elections[e].args.term);
    assert d.ledger[out.node.term] == LogTerms(c.nodes[i]);
  }

  lemma TermBackedKept(c: State, a: Action, term: int)
    requires SafeSoFar(c) && LedgerInv(c) && Enabled(c, a) && term in Step(c, a).ledger
    requires NodesGrow(c.nodes, Step(c, a).nodes) && Extends(c.elections, Step(c, a).elections)
    ensures TermBacked(Step(c, a).nodes, Step(c, a).elections, term, Step(c, a).ledger[term].Keys)
  {
    if a.Submit? {
      StartedTermBacked(c, a.i, a.command, term);
    } else if a.HearVote? {
      WonTermBacked(c, a.e, a.s, term);
    } else {
      LedgerUntouched(c, a);
      TermBackedGrows(c, Step(c, a), term, c.ledger[term].Keys);
    }
  }

  lemma StartedTermBacked(c: State, i: nat, command: Command, term: int)
    requires SafeSoFar(c) && LedgerInv(c) && Enabled(c, Submit(i, command)) && term in StepSubmit(c, i, command).ledger
    requires NodesGrow(c.nodes, StepSubmit(c, i, command).nodes)
    ensures var d := StepSubmit(c, i, command); TermBacked(d.nodes, d.elections, term, d.ledger[term].Keys)
  {
    if term == c.nodes[i].term {
      StartedBacked(c, i, command);
    } else {
      TermBackedGrows(c, StepSubmit(c, i, command), term, c.ledger[term].Keys);
    }
  }

  lemma WonTermBacked(c: State, e: nat, s: nat, term: int)
    requires SafeSoFar(c) && LedgerInv(c) && Enabled(c, HearVote(e, s)) && term in StepHearVote(c, e, s).ledger
    requires NodesGrow(c.nodes, StepHearVote(c, e, s).nodes)
    requires Extends(c.elections, StepHearVote(c, e, s).elections)
    ensures var d := StepHearVote(c, e, s); TermBacked(d.nodes, d.elections, term, d.ledger[term].Keys)
  {
    var d := StepHearVote(c, e, s);
    if d.ledger != c.ledger { WonBacked(c, e, s); }
    if term in c.ledger && d.ledger[term] == c.ledger[term] {
      TermBackedGrows(c, d, term, c.ledger[term].Keys);
    }
  }

  lemma InStepGrows(s: Node, l: map<int, map<int, int>>, m: map<int, map<int, int>>)
    requires Sound(s) && InStep(s, l) && LedgerGrows(l, m)
    ensures InStep(s, m)
  {
    if s.status == Leader {
      forall k | s.snapIndex <= k <= Top(s) ensures OnLedger(m, s.term, k, TermAt(s, k)) {
        assert OnLedger(l, s.term, k, TermAt(s, k));
      }
    }
  }

  lemma SameLogInStep(s: Node, t: Node, ledger: map<int, map<int, int>>)
    requires Sound(s) && InStep(s, ledger) && NoNewLeader(s, t)
    requires t.logs == s.logs && t.snapIndex == s.snapIndex && t.snapTerm == s.snapTerm
    ensures InStep(t, ledger)
  {
    assert forall k :: s.snapIndex <= k <= Top(s) ==> TermAt(t, k) == TermAt(s, k);
  }

  lemma CompactInStep(s: Node, index: int, data: Image, ledger: map<int, map<int, int>>)
    requires Sound(s) && InStep(s, ledger)
    ensures InStep(Compact(s, index, data), ledger)
  {
    var t := Compact(s, index, data);
    assert forall k :: t.snapIndex <= k <= Top(t) ==> TermAt(t, k) == TermAt(s, k);
  }

  lemma FollowersOnly(s: Node, a: AppendEntriesArgs, b: InstallSnapshotArgs)
    requires Sound(s) && Contiguous(a) && SaneSnapshot(b)
    ensures HandleAppend(s, a).node.status == Leader ==> HandleAppend(s, a).node == s
    ensures HandleInstall(s, b).node.status == Leader ==> HandleInstall(s, b).node == s
  {}

  /** A leader's log changes only by appending its own entries and by compaction. */
  lemma LeaderInStep(c: State, a: Action, i: nat)
    requires SafeSoFar(c) && LedgerInv(c) && Enabled(c, a) && i == Actor(c, a) && i < |c.nodes|
    requires LedgerGrows(c.ledger, Step(c, a).ledger)
    requires !a.HearVote? ==> NoNewLeader(c.nodes[i], Step(c, a).nodes[i])
    ensures InStep(Step(c, a).nodes[i], Step(c, a).ledger)
  {
    var s := c.nodes[i];
    assert GoodNode(c.nodes, i) && InStep(s, c.ledger);
    if a.HearVote? {
      WonInStep(c, a.e, a.s);
    } else if a.Submit? {
      StartedInStep(c, i, a.command);
    } else if a.TakeSnapshot? {
      CompactInStep(s, a.index, a.data, c.ledger);
    } else if a.AnswerAppend? {
      assert GoodBeat(c.nodes, c.beats[a.b]) && GoodCall(c.beats[a.b], c.beats[a.b].calls[a.s]);
      FollowersOnly(s, c.beats[a.b].calls[a.s].args, InstallSnapshotArgs(0, 0, 0, 0, NoImage));
    } else if a.AnswerSnap? {
      assert GoodSnap(c.nodes, c.snaps[a.k]);
      FollowersOnly(s, AppendEntriesArgs(0, 0, 0, 0, [], 0), c.snaps[a.k].args);
    } else {
      LogUntouched(c, a, i);
      SameLogInStep(s, Step(c, a).nodes[i], c.ledger);
    }
  }

  lemma VotedInStep(s: Node, reply: RequestVoteReply, votedNum: int, ledger: map<int, map<int, int>>)
    requires Sound(s) && InStep(s, ledger)
    ensures var out := HandleVoteReply(s, reply, votedNum);
            InStep(out.node, if out.won then ledger[out.node.term := LogTerms(s)] else ledger)
  {
    var out := HandleVoteReply(s, reply, votedNum);
    if out.won {
      assert forall k :: s.snapIndex <= k <= Top(s) ==> TermAt(out.node, k) == TermAt(s, k);
    }
  }

  lemma WonInStep(c: State, e: nat, s: nat)
    requires SafeSoFar(c) && LedgerInv(c) && Enabled(c, HearVote(e, s))
    ensures var i := c.elections[e].candidate;
            && i < |c.nodes|
            && InStep(StepHearVote(c, e, s).nodes[i], StepHearVote(c, e, s).ledger)
  {
    var i := c.elections[e].candidate;
    assert GoodNode(c.nodes, i) && InStep(c.nodes[i], c.ledger);
    VotedInStep(c.nodes[i], c.elections[e].calls[s].reply, c.elections[e].votedNum, c.ledger);
  }

  lemma StartedInStep(c: State, i: nat, command: Command)
    requires SafeSoFar(c) && LedgerInv(c) && Enabled(c, Submit(i, command))
    ensures InStep(StepSubmit(c, i, command).nodes[i], StepSubmit(c, i, command).ledger)
  {
    var s := c.nodes[i];
    var t := StepSubmit(c, i, command).nodes[i];
    var m := StepSubmit(c, i, command).ledger;
    assert GoodNode(c.nodes, i) && InStep(s, c.ledger);
    LastIndexSound(s);
    NewIndexFresh(c, i, s.term);
    forall k | t.snapIndex <= k <= Top(t) ensures OnLedger(m, t.term, k, TermAt(t, k)) {
      if k <= Top(s) { assert OnLedger(c.ledger, s.term, k, TermAt(s, k)); }
    }
  }

  lemma BeatLedgerGrows(l: map<int, map<int, int>>, m: map<int, map<int, int>>, b: Beat)
    requires BeatOnLedger(l, b) && LedgerGrows(l, m)
    ensures BeatOnLedger(m, b)
  {
    forall s | 0 <= s < |b.calls| && HasArgs(b.calls[s]) ensures ArgsOnLedger(m, b.calls[s].args) {
      var a := b.calls[s].args;
      assert ArgsOnLedger(l, a);
      assert forall k :: 0 <= k < |a.entries| ==> OnLedger(l, a.term, a.entries[k].index, a.entries[k].term);
    }
  }

  lemma BuiltOnLedger(s: Node, ledger: map<int, map<int, int>>, i: nat)
    requires Sound(s) && s.status == Leader && CanBeat(s) && InStep(s, ledger) && i < s.peers
    ensures HasArgs(NewBeat(s).calls[i]) ==> ArgsOnLedger(ledger, NewBeat(s).calls[i].args)
  {
    assert NewBeat(s).calls[i] == CallFor(DispatchTo(s, i));
    if HasArgs(NewBeat(s).calls[i]) {
      var a := NewBeat(s).calls[i].args;
      forall k | 0 <= k < |a.entries| ensures OnLedger(ledger, a.term, a.entries[k].index, a.entries[k].term) {
        assert OnLedger(ledger, s.term, a.prevLogIndex + 1 + k, TermAt(s, a.prevLogIndex + 1 + k));
      }
    }
  }

  lemma NewBeatOnLedger(c: State, i: nat)
    requires SafeSoFar(c) && LedgerInv(c) && Enabled(c, DoHeartBeat(i)) && GoodNode(c.nodes, i)
    ensures BeatOnLedger(c.ledger, NewBeat(c.nodes[i]))
  {
    var s := c.nodes[i];
    LastIndexSound(s);
    assert InStep(s, c.ledger);
    assert OnLedger(c.ledger, s.term, Top(s), TermAt(s, Top(s)));
    forall k: nat | k < s.peers && HasArgs(NewBeat(s).calls[k])
        ensures ArgsOnLedger(c.ledger, NewBeat(s).calls[k].args) {
      BuiltOnLedger(s, c.ledger, k);
    }
  }

  /** A step changes only the stage of one call of one round, and a heartbeat adds a round. */
  predicate SameRound(b: Beat, b': Beat) {
    && b'.leader == b.leader && b'.term == b.term && b'.endIndex == b.endIndex && b'.endTerm == b.endTerm
    && |b'.calls| == |b.calls|
    && forall s :: 0 <= s < |b.calls| ==>
         (HasArgs(b'.calls[s]) ==> HasArgs(b.calls[s]) && b'.calls[s].args == b.calls[s].args)
  }

  lemma RoundsLast(c: State, a: Action, b: nat)
    requires Structured(c) && Enabled(c, a) && b < |c.beats|
    ensures b < |Step(c, a).beats| && SameRound(c.beats[b], Step(c, a).beats[b])
  {}

  lemma SameRoundOnLedger(l: map<int, map<int, int>>, m: map<int, map<int, int>>, b: Beat, b': Beat)
    requires BeatOnLedger(l, b) && LedgerGrows(l, m) && SameRound(b, b')
    ensures BeatOnLedger(m, b')
  {
    BeatLedgerGrows(l, m, b);
  }

  lemma BeatLedgerKept(c: State, a: Action, b: nat)
    requires SafeSoFar(c) && LedgerInv(c) && Enabled(c, a) && b < |Step(c, a).beats|
    requires LedgerGrows(c.ledger, Step(c, a).ledger)
    ensures BeatOnLedger(Step(c, a).ledger, Step(c, a).beats[b])
  {
    if b < |c.beats| {
      RoundsLast(c, a, b);
      SameRoundOnLedger(c.ledger, Step(c, a).ledger, c.beats[b], Step(c, a).beats[b]);
    } else {
      assert GoodNode(c.nodes, a.i);
      NewBeatOnLedger(c, a.i);
    }
  }

  lemma LedgerKept(c: State, a: Action)
    requires SafeSoFar(c) && LedgerInv(c) && Enabled(c, a)
    ensures LedgerInv(Step(c, a)) && LedgerGrows(c.ledger, Step(c, a).ledger)
  {
    var d := Step(c, a);
    var i := Actor(c, a);
    LedgerExtended(c, a);
    ActorOnly(c, a);
    StepGrows(c, a);
    StepExtends(c, a);
    LeaderInStep(c, a, i);
    forall j | 0 <= j < |d.nodes| ensures InStep(d.nodes[j], d.ledger) {
      if j != i {
        assert GoodNode(c.nodes, j);
        InStepGrows(c.nodes[j], c.ledger, d.ledger);
      }
    }
    forall term | term in d.ledger ensures TermBacked(d.nodes, d.elections, term, d.ledger[term].Keys) {
      TermBackedKept(c, a, term);
    }
    forall b | 0 <= b < |d.beats| ensures BeatOnLedger(d.ledger, d.beats[b]) {
      BeatLedgerKept(c, a, b);
    }
  }

  // ------------------------------------------------- acknowledgements are kept

  /** Nothing a node does inside a term takes away an entry at an index that the term's ledger fixes. */
  lemma AppendHolds(s: Node, a: AppendEntriesArgs, ledger: map<int, map<int, int>>, term: int, index: int,
                    entryTerm: int)
    requires Sound(s) && Contiguous(a) && ArgsOnLedger(ledger, a) && OnLedger(ledger, term, index, entryTerm)
    requires Kept(s, term, index, entryTerm)
    ensures Kept(HandleAppend(s, a).node, term, index, entryTerm)
  {
    var t := HandleAppend(s, a).node;
    if a.term == s.term == term && Matches(s, a) && a.prevLogIndex < index <= EndIndex(a) {
      var k := index - a.prevLogIndex - 1;
      assert a.entries[k].index == index && OnLedger(ledger, a.term, a.entries[k].index, a.entries[k].term);
    }
  }

  lemma InstallHolds(s: Node, a: InstallSnapshotArgs, term: int, index: int, entryTerm: int)
    requires Sound(s) && SaneSnapshot(a) && Kept(s, term, index, entryTerm)
    ensures Kept(HandleInstall(s, a).node, term, index, entryTerm)
  {}

  lemma CompactHolds(s: Node, at: int, data: Image, term: int, index: int, entryTerm: int)
    requires Sound(s) && Kept(s, term, index, entryTerm)
    ensures Kept(Compact(s, at, data), term, index, entryTerm)
  {}

  lemma StartHolds(s: Node, command: Command, term: int, index: int, entryTerm: int)
    requires Sound(s) && Kept(s, term, index, entryTerm)
    ensures Kept(Start(s, command), term, index, entryTerm)
  {}

  lemma AnswerHolds(c: State, b: nat, s: nat, term: int, index: int, entryTerm: int)
    requires QuorumInv(c) && Enabled(c, AnswerAppend(b, s))
    requires OnLedger(c.ledger, term, index, entryTerm) && Kept(c.nodes[s], term, index, entryTerm)
    ensures Kept(StepAnswerAppend(c, b, s).nodes[s], term, index, entryTerm)
  {
    var beat := c.beats[b];
    assert GoodNode(c.nodes, s) && GoodBeat(c.nodes, beat) && GoodCall(beat, beat.calls[s])
        && BeatOnLedger(c.ledger, beat);
    AppendHolds(c.nodes[s], beat.calls[s].args, c.ledger, term, index, entryTerm);
  }

  lemma AnswerSnapHolds(c: State, k: nat, term: int, index: int, entryTerm: int)
    requires Structured(c) && Enabled(c, AnswerSnap(k))
    requires Kept(c.nodes[c.snaps[k].server], term, index, entryTerm)
    ensures Kept(StepAnswerSnap(c, k).nodes[c.snaps[k].server], term, index, entryTerm)
  {
    assert GoodSnap(c.nodes, c.snaps[k]) && GoodNode(c.nodes, c.snaps[k].server);
    InstallHolds(c.nodes[c.snaps[k].server], c.snaps[k].args, term, index, entryTerm);
  }

  lemma ActorHolds(c: State, a: Action, i: nat, term: int, index: int, entryTerm: int)
    requires Structured(c) && Enabled(c, a) && i == Actor(c, a) && i < |c.nodes| && !a.AnswerAppend?
    requires Kept(c.nodes[i], term, index, entryTerm)
    requires Grows(c.nodes[i], Step(c, a).nodes[i])
    ensures Kept(Step(c, a).nodes[i], term, index, entryTerm)
  {
    assert GoodNode(c.nodes, i);
    if !WritesLog(a) {
      LogUntouched(c, a, i);
    } else if a.AnswerSnap? {
      AnswerSnapHolds(c, a.k, term, index, entryTerm);
    } else if a.Submit? {
      StartHolds(c.nodes[i], a.command, term, index, entryTerm);
    } else {
      CompactHolds(c.nodes[i], a.index, a.data, term, index, entryTerm);
    }
  }

  /** Every node keeps what it holds; the facts about the step are stated once and for all nodes. */
  ghost predicate AllKept(c: State, d: State) {
    |d.nodes| == |c.nodes| &&
    forall i, term, index, entryTerm ::
      0 <= i < |c.nodes| && OnLedger(c.ledger, term, index, entryTerm) && Kept(c.nodes[i], term, index, entryTerm)
      ==> Kept(d.nodes[i], term, index, entryTerm)
  }

  lemma StepKeeps(c: State, a: Action)
    requires QuorumInv(c) && Enabled(c, a)
    ensures AllKept(c, Step(c, a))
  {
    var d := Step(c, a);
    ActorOnly(c, a);
    ActorGrows(c, a);
    forall i, term, index, entryTerm | 0 <= i < |c.nodes| && OnLedger(c.ledger, term, index, entryTerm)
                                       && Kept(c.nodes[i], term, index, entryTerm)
      ensures Kept(d.nodes[i], term, index, entryTerm)
    {
      if i == Actor(c, a) {
        if a.AnswerAppend? { AnswerHolds(c, a.b, a.s, term, index, entryTerm); }
        else { ActorHolds(c, a, i, term, index, entryTerm); }
      }
    }
  }

  lemma BeatKeptOn(c: State, d: State, b: Beat)
    requires AllKept(c, d) && BeatKept(c.nodes, b) && OnLedger(c.ledger, b.term, b.endIndex, b.endTerm)
    ensures BeatKept(d.nodes, b)
  {}

  /** A node that answers success has the last entry of the round. */
  lemma SuccessHolds(s: Node, a: AppendEntriesArgs)
    requires Sound(s) && Contiguous(a)
    requires HandleAppend(s, a).reply.success
    ensures HasEntry(HandleAppend(s, a).node, EndIndex(a), EndTerm(a))
    ensures HandleAppend(s, a).node.term == a.term
  {
    var f := Follow(s, a.term);
    assert Matches(f, a);
    var t := Accepted(f, a);
    if |a.entries| > 0 && EndIndex(a) > t.snapIndex {
      assert t.logs[EndIndex(a) - t.snapIndex - 1].term == a.entries[|a.entries| - 1].term;
    }
  }

  lemma AnsweredCounts(c: State, b: nat, s: nat)
    requires Structured(c) && Enabled(c, AnswerAppend(b, s)) && CountsAckers(c.beats[b])
    ensures CountsAckers(StepAnswerAppend(c, b, s).beats[b])
  {
    assert Ackers(StepAnswerAppend(c, b, s).beats[b]) == Ackers(c.beats[b]);
  }

  lemma AnswererKept(c: State, b: nat, s: nat)
    requires Structured(c) && Enabled(c, AnswerAppend(b, s)) && Confirms(StepAnswerAppend(c, b, s).beats[b].calls[s])
    ensures Kept(StepAnswerAppend(c, b, s).nodes[s], c.beats[b].term, c.beats[b].endIndex, c.beats[b].endTerm)
  {
    var beat := c.beats[b];
    assert GoodBeat(c.nodes, beat) && GoodCall(beat, beat.calls[s]) && GoodNode(c.nodes, s);
    SuccessHolds(c.nodes[s], beat.calls[s].args);
  }

  lemma AnsweredKept(c: State, b: nat, s: nat)
    requires QuorumInv(c) && Enabled(c, AnswerAppend(b, s))
    requires AllKept(c, StepAnswerAppend(c, b, s))
    ensures BeatKept(StepAnswerAppend(c, b, s).nodes, StepAnswerAppend(c, b, s).beats[b])
  {
    var d := StepAnswerAppend(c, b, s);
    assert BeatOnLedger(c.ledger, c.beats[b]) && BeatKept(c.nodes, c.beats[b]);
    BeatKeptOn(c, d, c.beats[b]);
    if Confirms(d.beats[b].calls[s]) { AnswererKept(c, b, s); }
  }

  lemma CountedOnce(b: Beat, s: nat, args: AppendEntriesArgs, appendNums: int, majority: bool)
    requires CountsAckers(b) && s < |b.calls| && 1 < |b.calls| && b.calls[s].AppendReplied?
    requires majority <==> b.appendNums + 1 >= Quorum(|b.calls|)
    requires appendNums == if majority then 0 else b.appendNums + 1
    ensures var b' := b.(calls := b.calls[s := AppendCounted(args)], appendNums := appendNums,
                         majorities := if majority then b.majorities + 1 else b.majorities);
            CountsAckers(b') && (majority ==> |Ackers(b')| >= Quorum(|b.calls|))
  {
    var b' := b.(calls := b.calls[s := AppendCounted(args)], appendNums := appendNums,
                 majorities := if majority then b.majorities + 1 else b.majorities);
    assert Ackers(b') == Ackers(b) + {s};
    if b.majorities == 1 { NoSecondMajority(Ackers(b'), |b.calls|, b.appendNums + 1); }
  }

  lemma IgnoredCounts(b: Beat, s: nat, args: AppendEntriesArgs)
    requires CountsAckers(b) && s < |b.calls| && b.calls[s].AppendReplied?
    ensures CountsAckers(b.(calls := b.calls[s := AppendIgnored(args)]))
  {
    assert Ackers(b.(calls := b.calls[s := AppendIgnored(args)])) == Ackers(b);
  }

  lemma AckersHeard(c: State, b: nat, s: nat)
    requires Structured(c) && Enabled(c, HearAppend(b, s)) && CountsAckers(c.beats[b])
    ensures CountsAckers(StepHearAppend(c, b, s).beats[b])
    ensures StepHearAppend(c, b, s).commits != c.commits ==>
              |Ackers(StepHearAppend(c, b, s).beats[b])| >= Quorum(|c.nodes|)
  {
    var beat := c.beats[b];
    assert GoodBeat(c.nodes, beat) && GoodNode(c.nodes, beat.leader);
    var call := beat.calls[s];
    var out := HandleAppendReply(c.nodes[beat.leader], s, call.args, call.reply, beat.appendNums);
    if out.counted {
      CountedOnce(beat, s, call.args, out.appendNums, out.majority);
    } else {
      IgnoredCounts(beat, s, call.args);
    }
  }

  lemma HeardKept(c: State, b: nat, s: nat)
    requires QuorumInv(c) && Enabled(c, HearAppend(b, s)) && AllKept(c, StepHearAppend(c, b, s))
    ensures BeatKept(StepHearAppend(c, b, s).nodes, StepHearAppend(c, b, s).beats[b])
  {
    var d := StepHearAppend(c, b, s);
    var beat := c.beats[b];
    assert GoodBeat(c.nodes, beat) && BeatOnLedger(c.ledger, beat) && BeatKept(c.nodes, beat);
    BeatKeptOn(c, d, beat);
    assert forall k :: 0 <= k < |beat.calls| && Confirms(d.beats[b].calls[k]) ==> Confirms(beat.calls[k]);
  }

  /** The commit branch runs with a majority of the round behind it. */
  lemma NewCommitGood(c: State, b: nat, s: nat)
    requires QuorumInv(c) && Enabled(c, HearAppend(b, s)) && AllKept(c, StepHearAppend(c, b, s))
    requires StepHearAppend(c, b, s).commits != c.commits
    ensures var d := StepHearAppend(c, b, s); GoodCommit(d.nodes, d.ledger, d.commits[|c.commits|])
  {
    var d := StepHearAppend(c, b, s);
    var beat := c.beats[b];
    HeardKept(c, b, s);
    AckersHeard(c, b, s);
    assert GoodBeat(c.nodes, beat) && GoodCall(beat, beat.calls[s]) && BeatOnLedger(c.ledger, beat);
    var m := d.commits[|c.commits|];
    assert m.term == beat.term && m.index == beat.endIndex && beat.endTerm == beat.term;
    assert forall k :: k in m.ackers ==> Confirms(d.beats[b].calls[k]);
  }

  lemma NewBeatKept(c: State, i: nat)
    requires QuorumInv(c) && Enabled(c, DoHeartBeat(i)) && GoodNode(c.nodes, i)
    ensures CountsAckers(NewBeat(c.nodes[i])) && BeatKept(c.nodes, NewBeat(c.nodes[i]))
  {
    var s := c.nodes[i];
    var b := NewBeat(s);
    LastIndexSound(s);
    forall k: nat | k < s.peers ensures Confirms(b.calls[k]) <==> k == i {
      assert b.calls[k] == CallFor(DispatchTo(s, k));
    }
    assert Ackers(b) == {i};
  }

  lemma AckCountsKept(c: State, a: Action, b: nat)
    requires QuorumInv(c) && Enabled(c, a) && b < |Step(c, a).beats|
    ensures CountsAckers(Step(c, a).beats[b])
  {
    if b < |c.beats| {
      assert CountsAckers(c.beats[b]);
      if a.AnswerAppend? && a.b == b { AnsweredCounts(c, b, a.s); }
      if a.HearAppend? && a.b == b { AckersHeard(c, b, a.s); }
    } else {
      assert GoodNode(c.nodes, a.i);
      NewBeatKept(c, a.i);
    }
  }

  lemma AckBeatKept(c: State, a: Action, b: nat)
    requires QuorumInv(c) && Enabled(c, a) && b < |Step(c, a).beats| && AllKept(c, Step(c, a))
    ensures BeatKept(Step(c, a).nodes, Step(c, a).beats[b])
  {
    if a.AnswerAppend? && a.b == b {
      AnsweredKept(c, b, a.s);
    } else if a.HearAppend? && a.b == b {
      HeardKept(c, b, a.s);
    } else if b < |c.beats| {
      assert BeatOnLedger(c.ledger, c.beats[b]) && BeatKept(c.nodes, c.beats[b]);
      BeatKeptOn(c, Step(c, a), c.beats[b]);
    } else {
      assert GoodNode(c.nodes, a.i);
      NewBeatKept(c, a.i);
    }
  }

  lemma GoodCommitKept(c: State, d: State, m: Commit)
    requires AllKept(c, d) && LedgerGrows(c.ledger, d.ledger) && GoodCommit(c.nodes, c.ledger, m)
    ensures GoodCommit(d.nodes, d.ledger, m)
  {}

  lemma CommitsAppended(c: State, a: Action)
    requires Structured(c) && Enabled(c, a)
    ensures !a.HearAppend? ==> Step(c, a).commits == c.commits
    ensures |c.commits| <= |Step(c, a).commits| <= |c.commits| + 1 && Step(c, a).commits[..|c.commits|] == c.commits
  {}

  lemma AckKept(c: State, a: Action)
    requires QuorumInv(c) && Enabled(c, a) && LedgerGrows(c.ledger, Step(c, a).ledger)
    ensures AckInv(Step(c, a))
  {
    var d := Step(c, a);
    StepKeeps(c, a);
    CommitsAppended(c, a);
    forall b | 0 <= b < |d.beats| ensures CountsAckers(d.beats[b]) && BeatKept(d.nodes, d.beats[b]) {
      AckCountsKept(c, a, b);
      AckBeatKept(c, a, b);
    }
    forall k | 0 <= k < |d.commits| ensures GoodCommit(d.nodes, d.ledger, d.commits[k]) {
      if k < |c.commits| {
        assert d.commits[k] == c.commits[k];
        GoodCommitKept(c, d, c.commits[k]);
      } else {
        NewCommitGood(c, a.b, a.s);
      }
    }
  }

  lemma QuorumInvKept(c: State, a: Action)
    requires QuorumInv(c) && Enabled(c, a)
    ensures QuorumInv(Step(c, a)) && |Step(c, a).nodes| == |c.nodes|
  {
    ElectionsStep(c, a);
    IdentityKept(c, a);
    LedgerKept(c, a);
    AckKept(c, a);
  }

  // -------------------------------------------------------------- over all runs

  lemma {:induction false} RunQuorums(n: nat, run: seq<State>, t: nat)
    requires IsRun(n, run) && t < |run|
    ensures QuorumInv(run[t]) && |run[t].nodes| == n
  {
    if t == 0 {
      InitStructured(n);
    } else {
      RunQuorums(n, run, t - 1);
      var a := LastAction(n, run, t);
      QuorumInvKept(run[t - 1], a);
    }
  }

  predicate Confirmed(c: State, b: nat, s: nat) {
    b < |c.beats| && s < |c.beats[b].calls| && Confirms(c.beats[b].calls[s])
  }

  /** The node's confirmation of round b is new at time u: it answered, or started the round, just then. */
  ghost predicate JustConfirmed(run: seq<State>, u: nat, b: nat, s: nat) {
    u < |run| && Confirmed(run[u], b, s) && (u > 0 ==> !Confirmed(run[u - 1], b, s))
  }

  /** The node is in the term of the round and has the round's last entry. */
  predicate AtEnd(c: State, s: nat, b: Beat) {
    s < |c.nodes| && c.nodes[s].term == b.term && HasEntry(c.nodes[s], b.endIndex, b.endTerm)
  }

  /** When the node confirmed the round, at some time up to t, it was in its term and had its last entry. */
  ghost predicate HeldWhenConfirmed(run: seq<State>, t: nat, b: nat, s: nat)
    requires t < |run| && b < |run[t].beats|
  {
    exists u: nat {:trigger JustConfirmed(run, u, b, s)} ::
      u <= t && JustConfirmed(run, u, b, s) && AtEnd(run[u], s, run[t].beats[b])
  }

  lemma AnsweredAtEnd(c: State, b: nat, s: nat)
    requires Structured(c) && Enabled(c, AnswerAppend(b, s))
    requires Confirms(StepAnswerAppend(c, b, s).beats[b].calls[s])
    ensures AtEnd(StepAnswerAppend(c, b, s), s, c.beats[b])
  {
    var beat := c.beats[b];
    assert GoodBeat(c.nodes, beat) && GoodCall(beat, beat.calls[s]) && GoodNode(c.nodes, s);
    SuccessHolds(c.nodes[s], beat.calls[s].args);
  }

  lemma BuiltAtEnd(c: State, i: nat, s: nat)
    requires Structured(c) && Enabled(c, DoHeartBeat(i)) && s < |c.nodes| && GoodNode(c.nodes, i)
    requires Confirms(NewBeat(c.nodes[i]).calls[s])
    ensures AtEnd(StepDoHeartBeat(c, i), s, NewBeat(c.nodes[i]))
  {
    LastIndexSound(c.nodes[i]);
    assert NewBeat(c.nodes[i]).calls[s] == CallFor(DispatchTo(c.nodes[i], s));
  }

  lemma NewConfirmation(c: State, a: Action, b: nat, s: nat)
    requires Structured(c) && Enabled(c, a) && s < |c.nodes|
    requires Confirmed(Step(c, a), b, s) && !Confirmed(c, b, s)
    ensures AtEnd(Step(c, a), s, Step(c, a).beats[b])
  {
    if a.AnswerAppend? {
      assert a.b == b && a.s == s;
      AnsweredAtEnd(c, b, s);
    } else {
      assert a.DoHeartBeat?;
      assert GoodNode(c.nodes, a.i);
      BuiltAtEnd(c, a.i, s);
    }
  }

  /** Whoever confirmed a round had the round's last entry, in the round's term, when it confirmed. */
  lemma {:induction false} AckWitness(n: nat, run: seq<State>, t: nat, b: nat, s: nat)
    requires IsRun(n, run) && t < |run| && s < n && Confirmed(run[t], b, s)
    ensures HeldWhenConfirmed(run, t, b, s)
    decreases t
  {
    if t > 0 {
      RunStructured(n, run, t);
      RunStructured(n, run, t - 1);
      var a := LastAction(n, run, t);
      if Confirmed(run[t - 1], b, s) {
        RoundsLast(run[t - 1], a, b);
        AckWitness(n, run, t - 1, b, s);
      } else {
        NewConfirmation(run[t - 1], a, b, s);
        assert JustConfirmed(run, t, b, s);
      }
    }
  }

  /** Round b is the one whose majority made the commit. */
  predicate CommitsRound(c: State, b: nat, m: Commit) {
    && b < |c.beats| && m.ackers == Ackers(c.beats[b]) && m.leader == c.beats[b].leader
    && m.term == c.beats[b].term == c.beats[b].endTerm && m.index == c.beats[b].endIndex
  }

  lemma CommitSource(c: State, a: Action)
    requires Structured(c) && Enabled(c, a) && |Step(c, a).commits| > |c.commits|
    ensures a.HearAppend? && |Step(c, a).commits| == |c.commits| + 1
    ensures CommitsRound(Step(c, a), a.b, Step(c, a).commits[|c.commits|])
  {
    assert GoodBeat(c.nodes, c.beats[a.b]) && GoodCall(c.beats[a.b], c.beats[a.b].calls[a.s]);
  }

  /** Commit k was made in the step to time u, by round b. */
  ghost predicate MadeBy(run: seq<State>, k: nat, u: nat, b: nat) {
    0 < u < |run| && |run[u - 1].commits| == k < |run[u].commits| && CommitsRound(run[u], b, run[u].commits[k])
  }

  lemma {:induction false} CommitMade(n: nat, run: seq<State>, t: nat, k: nat) returns (u: nat, b: nat)
    requires IsRun(n, run) && t < |run| && k < |run[t].commits|
    ensures u <= t && MadeBy(run, k, u, b) && run[u].commits[k] == run[t].commits[k]
    decreases t
  {
    if t == 0 {
      assert false;
    } else {
      var a := LastAction(n, run, t);
      CommitsAppended(run[t - 1], a);
      if k < |run[t - 1].commits| {
        u, b := CommitMade(n, run, t - 1, k);
        assert run[t].commits[k] == run[t].commits[..|run[t - 1].commits|][k];
      } else {
        CommitSource(run[t - 1], a);
        u, b := t, a.b;
      }
    }
  }

  lemma AckersWitness(n: nat, run: seq<State>, t: nat, b: nat, s: nat)
    requires IsRun(n, run) && t < |run| && b < |run[t].beats| && s in Ackers(run[t].beats[b])
    ensures HeldWhenConfirmed(run, t, b, s)
  {
    RunStructured(n, run, t);
    assert GoodBeat(run[t].nodes, run[t].beats[b]);
    AckWitness(n, run, t, b, s);
  }

  /** A leader's commit index rises through replies only by a recorded commit of its own term. */
  lemma CommitRecorded(c: State, b: nat, s: nat)
    requires Structured(c) && Enabled(c, HearAppend(b, s))
    requires var i := c.beats[b].leader; StepHearAppend(c, b, s).nodes[i].commitIndex > c.nodes[i].commitIndex
    ensures var d := StepHearAppend(c, b, s); var i := c.beats[b].leader;
            && |d.commits| == |c.commits| + 1
            && d.commits[|c.commits|].leader == i && d.commits[|c.commits|].term == d.nodes[i].term
            && d.commits[|c.commits|].index == d.nodes[i].commitIndex
  {}

  /** Commit quorum: behind every commit k there is the round b of its leader that made it, at time u, and
      a majority of distinct nodes, the leader among them. Each had the committed entry, of the leader's
      term, when it confirmed the round, which was before the commit; and at any later time of the run it
      still holds it, or has a snapshot that reaches it, unless it has moved to a higher term. */
  lemma CommitHasQuorum(n: nat, run: seq<State>, t: nat, k: nat) returns (u: nat, b: nat)
    requires IsRun(n, run) && t < |run| && k < |run[t].commits|
    ensures u <= t && MadeBy(run, k, u, b) && run[u].commits[k] == run[t].commits[k]
    ensures var m := run[t].commits[k];
            && |m.ackers| >= Quorum(n) && m.leader in m.ackers
            && forall s :: s in m.ackers ==>
                 && s < n == |run[t].nodes|
                 && HeldWhenConfirmed(run, u, b, s)
                 && Kept(run[t].nodes[s], m.term, m.index, m.term)
  {
    u, b := CommitMade(n, run, t, k);
    RunQuorums(n, run, t);
    assert GoodCommit(run[t].nodes, run[t].ledger, run[t].commits[k]);
    forall s | s in run[t].commits[k].ackers ensures HeldWhenConfirmed(run, u, b, s) {
      AckersWitness(n, run, u, b, s);
    }
  }

  /** One majority per round: the commit branch of a heartbeat round runs at most once. */
  lemma OneMajorityPerBeat(n: nat, run: seq<State>, t: nat, b: nat)
    requires IsRun(n, run) && t < |run| && b < |run[t].beats|
    ensures run[t].beats[b].majorities <= 1
  {
    RunQuorums(n, run, t);
    assert CountsAckers(run[t].beats[b]);
  }
}
