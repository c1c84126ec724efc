/** Election Safety (section 5.2 of the Raft paper): in every run, however calls are lost, delayed and
    reordered, at most one node becomes Leader in a term. */
module ElectionSafety {
  import opened RaftNode
  import opened Cluster
  import opened Quorums

  predicate Granted(e: Election, s: nat) {
    && s < |e.calls|
    && (e.calls[s].VoteCounted? || (e.calls[s].VoteReplied? && e.calls[s].reply.voteGranted))
  }

  function Voters(e: Election): set<nat> {
    set s: nat | s < |e.calls| && e.calls[s].VoteCounted?
  }

  predicate Elected(es: seq<Election>, i: nat, term: int) {
    exists k :: 0 <= k < |es| && es[k].candidate == i && es[k].args.term == term && es[k].wins >= 1
  }

  /** A granted vote binds the voter for the rest of its term. */
  ghost predicate VoteBinds(nodes: seq<Node>, e: Election, s: nat)
    requires s < |nodes|
  {
    Granted(e, s) ==>
      && e.args.term <= nodes[s].term
      && (e.args.term == nodes[s].term ==> nodes[s].votedFor == e.candidate)
  }

  ghost predicate CountsVoters(e: Election) {
    && 0 <= e.votedNum && (|e.calls| > 1 ==> e.votedNum < Quorum(|e.calls|))
    && e.wins <= 1
    && |Voters(e)| == e.votedNum + (if e.wins == 0 then 0 else Quorum(|e.calls|))
    && forall s :: 0 <= s < |e.calls| && e.calls[s].VoteReplied? && e.calls[s].reply.voteGranted ==>
         e.calls[s].reply.term == e.args.term
  }

  /** Two elections of one term that share a voter have the same candidate. */
  ghost predicate OneVote(e: Election, f: Election) {
    forall s :: Granted(e, s) && Granted(f, s) && e.args.term == f.args.term ==> e.candidate == f.candidate
  }

  /** Elections of one candidate have increasing terms. */
  ghost predicate TermsRise(e: Election, f: Election) {
    e.candidate == f.candidate ==> e.args.term < f.args.term
  }

  ghost predicate ElectionInv(nodes: seq<Node>, es: seq<Election>) {
    && (forall e {:trigger CountsVoters(es[e])} :: 0 <= e < |es| ==> CountsVoters(es[e]))
    && (forall e, s {:trigger VoteBinds(nodes, es[e], s)} ::
          0 <= e < |es| && 0 <= s < |nodes| ==> VoteBinds(nodes, es[e], s))
    && (forall e, f {:trigger OneVote(es[e], es[f])} :: 0 <= e < |es| && 0 <= f < |es| ==> OneVote(es[e], es[f]))
    && (forall e, f {:trigger TermsRise(es[e], es[f])} :: 0 <= e < f < |es| ==> TermsRise(es[e], es[f]))
    && (forall i :: 0 <= i < |nodes| && nodes[i].status == Leader ==> Elected(es, i, nodes[i].term))
  }

  // ------------------------------------------------------------- consequences

  /** Two elections of one term that both reached a majority are one election. */
  lemma WinnersAgree(nodes: seq<Node>, es: seq<Election>, e: nat, f: nat)
    requires ElectionInv(nodes, es) && e < |es| && f < |es|
    requires |es[e].calls| == |es[f].calls| == |nodes|
    requires |Voters(es[e])| >= Quorum(|nodes|) && |Voters(es[f])| >= Quorum(|nodes|)
    requires es[e].args.term == es[f].args.term
    ensures e == f
  {
    var s := QuorumsMeet(Voters(es[e]), Voters(es[f]), |nodes|);
    assert OneVote(es[e], es[f]) && Granted(es[e], s) && Granted(es[f], s);
    assert e < f ==> TermsRise(es[e], es[f]);
    assert f < e ==> TermsRise(es[f], es[e]);
  }

  lemma WonByQuorum(e: Election)
    requires CountsVoters(e) && e.wins >= 1
    ensures |Voters(e)| >= Quorum(|e.calls|)
  {}

  lemma OneElected(c: State, i: nat, j: nat, term: int)
    requires Structured(c) && ElectionInv(c.nodes, c.elections)
    requires Elected(c.elections, i, term) && Elected(c.elections, j, term)
    ensures i == j
  {
    var es := c.elections;
    var e: nat :| e < |es| && es[e].candidate == i && es[e].args.term == term && es[e].wins >= 1;
    var f: nat :| f < |es| && es[f].candidate == j && es[f].args.term == term && es[f].wins >= 1;
    assert GoodElection(c.nodes, es[e]) && GoodElection(c.nodes, es[f]);
    WonByQuorum(es[e]);
    WonByQuorum(es[f]);
    WinnersAgree(c.nodes, es, e, f);
  }

  // ------------------------------------------------------------- preservation

  lemma BindsGrows(m: seq<Node>, n: seq<Node>, e: Election, s: nat)
    requires NodesGrow(m, n) && s < |m| && VoteBinds(m, e, s)
    ensures VoteBinds(n, e, s)
  {
    assert Grows(m[s], n[s]);
  }

  /** Steps that touch no election only let nodes grow and make no leader. */
  lemma QuietStep(m: seq<Node>, n: seq<Node>, es: seq<Election>)
    requires ElectionInv(m, es) && NodesGrow(m, n)
    requires forall i :: 0 <= i < |m| ==> NoNewLeader(m[i], n[i])
    ensures ElectionInv(n, es)
  {
    forall e, s | 0 <= e < |es| && 0 <= s < |n| ensures VoteBinds(n, es[e], s) {
      BindsGrows(m, n, es[e], s);
    }
    forall i | 0 <= i < |n| && n[i].status == Leader ensures Elected(es, i, n[i].term) {
      assert NoNewLeader(m[i], n[i]);
    }
  }

  lemma ElectionAdded(m: seq<Node>, n: seq<Node>, es: seq<Election>, i: nat)
    requires ElectionInv(m, es) && NodesGrow(m, n) && i < |m| && m[i].me == i && m[i].status != Leader
    requires n[i] == Elect(m[i])
    requires forall j :: 0 <= j < |m| ==> NoNewLeader(m[j], n[j])
    requires forall e :: 0 <= e < |es| ==> GoodElection(m, es[e])
    ensures ElectionInv(n, es + [NewElection(n[i], |m|)])
  {
    QuietStep(m, n, es);
    var e := NewElection(n[i], |m|);
    var fs := es + [e];
    assert Voters(e) == {i};
    assert CountsVoters(e);
    forall k | 0 <= k < |es| ensures OneVote(es[k], e) && OneVote(e, es[k]) && TermsRise(es[k], e) {
      assert VoteBinds(m, es[k], i);
      assert GoodElection(m, es[k]);
    }
    forall j | 0 <= j < |n| && n[j].status == Leader ensures Elected(fs, j, n[j].term) {
      ElectedExtends(es, fs, j, n[j].term);
    }
  }

  /** Elections are never dropped, and what they won stays won. */
  ghost predicate Extends(es: seq<Election>, fs: seq<Election>) {
    |es| <= |fs| && forall k :: 0 <= k < |es| ==>
      fs[k].candidate == es[k].candidate && fs[k].args == es[k].args && es[k].wins <= fs[k].wins
  }

  lemma ElectedExtends(es: seq<Election>, fs: seq<Election>, i: nat, term: int)
    requires Elected(es, i, term) && Extends(es, fs)
    ensures Elected(fs, i, term)
  {
    var k :| 0 <= k < |es| && es[k].candidate == i && es[k].args.term == term && es[k].wins >= 1;
    assert fs[k].candidate == i && fs[k].args.term == term && fs[k].wins >= 1;
  }

  /** es[e] is replaced by f, which differs in the slot of one voter. */
  lemma ElectionReplaced(n: seq<Node>, es: seq<Election>, e: nat, f: Election)
    requires e < |es| && CountsVoters(f)
    requires f.candidate == es[e].candidate && f.args == es[e].args && es[e].wins <= f.wins
    requires forall k :: 0 <= k < |es| ==> CountsVoters(es[k])
    requires forall k, s :: 0 <= k < |es| && 0 <= s < |n| ==> VoteBinds(n, es[k], s)
    requires forall k, l :: 0 <= k < |es| && 0 <= l < |es| ==> OneVote(es[k], es[l])
    requires forall k, l :: 0 <= k < l < |es| ==> TermsRise(es[k], es[l])
    requires forall s :: 0 <= s < |n| ==> VoteBinds(n, f, s)
    requires forall k :: 0 <= k < |es| ==> OneVote(f, es[k])
    requires forall i :: 0 <= i < |n| && n[i].status == Leader ==> Elected(es[e := f], i, n[i].term)
    ensures ElectionInv(n, es[e := f])
  {
    var fs := es[e := f];
    forall k, l | 0 <= k < |fs| && 0 <= l < |fs| ensures OneVote(fs[k], fs[l]) {
      assert OneVote(f, es[k]) && OneVote(f, es[l]) && OneVote(es[k], es[l]);
    }
    forall k, l | 0 <= k < l < |fs| ensures TermsRise(fs[k], fs[l]) {
      assert TermsRise(es[k], es[l]);
    }
  }

  lemma GrantIsFirst(c: State, e: nat, s: nat, k: nat)
    requires Structured(c) && ElectionInv(c.nodes, c.elections) && Enabled(c, AnswerVote(e, s)) && k < |c.elections|
    ensures OneVote(StepAnswerVote(c, e, s).elections[e], c.elections[k])
  {
    var f := StepAnswerVote(c, e, s).elections[e];
    assert OneVote(c.elections[e], c.elections[k]);
    assert VoteBinds(c.nodes, c.elections[k], s);
    assert GoodElection(c.nodes, c.elections[e]) && GoodElection(c.nodes, c.elections[k]);
  }

  lemma AnswerVoteCounts(c: State, e: nat, s: nat)
    requires Structured(c) && ElectionInv(c.nodes, c.elections) && Enabled(c, AnswerVote(e, s))
    ensures CountsVoters(StepAnswerVote(c, e, s).elections[e])
  {
    assert GoodElection(c.nodes, c.elections[e]) && CountsVoters(c.elections[e]);
    assert Voters(StepAnswerVote(c, e, s).elections[e]) == Voters(c.elections[e]);
  }

  lemma AnswerVoteBinds(c: State, e: nat, s: nat, t: nat)
    requires Structured(c) && ElectionInv(c.nodes, c.elections) && Enabled(c, AnswerVote(e, s)) && t < |c.nodes|
    ensures var d := StepAnswerVote(c, e, s); t < |d.nodes| && VoteBinds(d.nodes, d.elections[e], t)
  {
    assert GoodElection(c.nodes, c.elections[e]) && GoodNode(c.nodes, s);
    assert VoteBinds(c.nodes, c.elections[e], t);
    RequestVoteSteady(c.nodes[s], c.elections[e].args);
  }

  lemma AnswerVoteKeeps(c: State, e: nat, s: nat)
    requires Structured(c) && ElectionInv(c.nodes, c.elections) && Enabled(c, AnswerVote(e, s))
    ensures var d := StepAnswerVote(c, e, s); ElectionInv(d.nodes, d.elections)
  {
    var d := Step(c, AnswerVote(e, s));
    var f := d.elections[e];
    StepGrows(c, AnswerVote(e, s));
    QuietStep(c.nodes, d.nodes, c.elections);
    AnswerVoteCounts(c, e, s);
    forall t | 0 <= t < |d.nodes| ensures VoteBinds(d.nodes, f, t) {
      AnswerVoteBinds(c, e, s, t);
    }
    forall k | 0 <= k < |c.elections| ensures OneVote(f, c.elections[k]) {
      GrantIsFirst(c, e, s, k);
    }
    forall i | 0 <= i < |d.nodes| && d.nodes[i].status == Leader ensures Elected(d.elections, i, d.nodes[i].term) {
      ElectedExtends(c.elections, d.elections, i, d.nodes[i].term);
    }
    ElectionReplaced(d.nodes, c.elections, e, f);
  }

  lemma HeardCounts(el: Election, s: nat, votedNum: int, won: bool)
    requires CountsVoters(el) && s < |el.calls| && 1 < |el.calls| && el.calls[s].VoteReplied?
    requires won <==> el.votedNum + 1 >= Quorum(|el.calls|)
    requires votedNum == if won then 0 else el.votedNum + 1
    ensures CountsVoters(el.(calls := el.calls[s := VoteCounted], votedNum := votedNum,
                             wins := if won then el.wins + 1 else el.wins))
  {
    var f := el.(calls := el.calls[s := VoteCounted], votedNum := votedNum,
                 wins := if won then el.wins + 1 else el.wins);
    assert Voters(f) == Voters(el) + {s};
    if el.wins == 1 { NoSecondMajority(Voters(f), |el.calls|, el.votedNum + 1); }
  }

  lemma HearVoteCounts(c: State, e: nat, s: nat)
    requires Structured(c) && ElectionInv(c.nodes, c.elections) && Enabled(c, HearVote(e, s))
    ensures CountsVoters(StepHearVote(c, e, s).elections[e])
  {
    var el := c.elections[e];
    assert CountsVoters(el) && GoodElection(c.nodes, el) && GoodNode(c.nodes, el.candidate);
    var out := HandleVoteReply(c.nodes[el.candidate], el.calls[s].reply, el.votedNum);
    if out.counted {
      HeardCounts(el, s, out.votedNum, out.won);
    } else {
      assert Voters(el.(calls := el.calls[s := VoteIgnored])) == Voters(el);
    }
  }

  /** Whoever is Leader after a vote was heard was elected. */
  lemma HeardElected(c: State, e: nat, s: nat, i: nat)
    requires Structured(c) && ElectionInv(c.nodes, c.elections) && Enabled(c, HearVote(e, s))
    requires i < |c.nodes| && StepHearVote(c, e, s).nodes[i].status == Leader
    ensures Elected(StepHearVote(c, e, s).elections, i, StepHearVote(c, e, s).nodes[i].term)
  {
    var d := StepHearVote(c, e, s);
    var el, f := c.elections[e], d.elections[e];
    assert GoodElection(c.nodes, el) && GoodNode(c.nodes, el.candidate) && CountsVoters(el);
    if f.wins > el.wins && i == f.candidate {
      assert d.elections[e].candidate == i && d.elections[e].args.term == d.nodes[i].term;
    } else {
      ElectedExtends(c.elections, d.elections, i, d.nodes[i].term);
    }
  }

  lemma HearVoteKeeps(c: State, e: nat, s: nat)
    requires Structured(c) && ElectionInv(c.nodes, c.elections) && Enabled(c, HearVote(e, s))
    ensures var d := StepHearVote(c, e, s); ElectionInv(d.nodes, d.elections)
  {
    var d := Step(c, HearVote(e, s));
    var el := c.elections[e];
    var f := d.elections[e];
    StepGrows(c, HearVote(e, s));
    HearVoteCounts(c, e, s);
    assert forall t :: Granted(f, t) ==> Granted(el, t) by { assert CountsVoters(el); }
    forall k, t | 0 <= k < |c.elections| && 0 <= t < |d.nodes| ensures VoteBinds(d.nodes, c.elections[k], t) {
      BindsGrows(c.nodes, d.nodes, c.elections[k], t);
    }
    forall t | 0 <= t < |d.nodes| ensures VoteBinds(d.nodes, f, t) {
      assert VoteBinds(d.nodes, el, t);
    }
    forall k | 0 <= k < |c.elections| ensures OneVote(f, c.elections[k]) {
      assert OneVote(el, c.elections[k]);
    }
    forall i | 0 <= i < |d.nodes| && d.nodes[i].status == Leader ensures Elected(d.elections, i, d.nodes[i].term) {
      HeardElected(c, e, s, i);
    }
    ElectionReplaced(d.nodes, c.elections, e, f);
  }

  lemma StepExtends(c: State, a: Action)
    requires Structured(c) && Enabled(c, a)
    ensures Extends(c.elections, Step(c, a).elections)
  {}

  lemma ElectionInvKept(c: State, a: Action)
    requires Structured(c) && ElectionInv(c.nodes, c.elections) && Enabled(c, a)
    ensures var d := Step(c, a); ElectionInv(d.nodes, d.elections)
  {
    StepGrows(c, a);
    if a.AnswerVote? { AnswerVoteKeeps(c, a.e, a.s); }
    else if a.HearVote? { HearVoteKeeps(c, a.e, a.s); }
    else if a.DoElection? && c.nodes[a.i].status != Leader {
      assert GoodNode(c.nodes, a.i);
      ElectionAdded(c.nodes, Step(c, a).nodes, c.elections, a.i);
    } else {
      assert Step(c, a).elections == c.elections;
      QuietStep(c.nodes, Step(c, a).nodes, c.elections);
    }
  }

  // ------------------------------------------------------------- over all runs

  lemma {:induction false} RunElections(n: nat, run: seq<State>, t: nat)
    requires IsRun(n, run) && t < |run|
    ensures Structured(run[t]) && |run[t].nodes| == n
    ensures ElectionInv(run[t].nodes, run[t].elections)
    ensures forall u :: 0 <= u <= t ==> Extends(run[u].elections, run[t].elections)
  {
    if t == 0 {
      InitStructured(n);
    } else {
      RunElections(n, run, t - 1);
      var a := LastAction(n, run, t);
      ElectionsStep(run[t - 1], a);
      forall u | 0 <= u < t ensures Extends(run[u].elections, run[t].elections) {
        ExtendsTransitive(run[u].elections, run[t - 1].elections, run[t].elections);
      }
    }
  }

  lemma ElectionsStep(c: State, a: Action)
    requires Structured(c) && ElectionInv(c.nodes, c.elections) && Enabled(c, a)
    ensures var d := Step(c, a); Structured(d) && ElectionInv(d.nodes, d.elections) && |d.nodes| == |c.nodes|
    ensures Extends(c.elections, Step(c, a).elections)
  {
    StructureKept(c, a);
    StepGrows(c, a);
    ElectionInvKept(c, a);
    StepExtends(c, a);
  }

  lemma ExtendsTransitive(es: seq<Election>, fs: seq<Election>, gs: seq<Election>)
    requires Extends(es, fs) && Extends(fs, gs)
    ensures Extends(es, gs)
  {}

  /** Election Safety: a term has one leader, even at different times of a run. */
  lemma ElectionSafe(n: nat, run: seq<State>, t: nat, u: nat, i: nat, j: nat)
    requires IsRun(n, run) && t < |run| && u < |run| && i < |run[t].nodes| && j < |run[u].nodes|
    requires run[t].nodes[i].status == Leader && run[u].nodes[j].status == Leader
    requires run[t].nodes[i].term == run[u].nodes[j].term
    ensures i == j
  {
    if u < t {
      ElectionSafe(n, run, u, t, j, i);
    } else {
      RunElections(n, run, t);
      RunElections(n, run, u);
      ElectedExtends(run[t].elections, run[u].elections, i, run[t].nodes[i].term);
      OneElected(run[u], i, j, run[t].nodes[i].term);
    }
  }

  /** One majority per round: no election of any run makes its candidate Leader twice. */
  lemma OneWinPerElection(n: nat, run: seq<State>, t: nat, e: nat)
    requires IsRun(n, run) && t < |run| && e < |run[t].elections|
    ensures run[t].elections[e].wins <= 1
  {
    RunElections(n, run, t);
    assert CountsVoters(run[t].elections[e]);
  }
}
