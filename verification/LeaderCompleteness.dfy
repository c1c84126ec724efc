/** Leader Completeness (section 5.4 of the Raft paper) for the runs in which no message leaves a stale
    tail: a committed entry is in the log of every later leader. A snapshot may keep a suffix that does
    not belong to it. */
module LeaderCompleteness {
  import opened KvTypes
  import opened RaftNode
  import opened Cluster
  import opened Quorums
  import opened ElectionSafety
  import opened EntryIdentity
  import opened CommitQuorum
  import opened LogPaths

  // ------------------------------------------------------------------- history

  /** A node confirmed a round of the term that ended with an entry of that term, at the index, when
      before commits were recorded. */
  datatype Ack = Ack(node: nat, term: int, index: int, before: nat)

  function AdvanceAcks(c: State, acks: set<Ack>, a: Action): set<Ack>
    requires Structured(c) && Enabled(c, a)
  {
    match a
    case AnswerAppend(b, s) =>
      if Confirms(StepAnswerAppend(c, b, s).beats[b].calls[s]) && c.beats[b].endTerm == c.beats[b].term
      then acks + {Ack(s, c.beats[b].term, c.beats[b].endIndex, |c.commits|)} else acks
    case DoHeartBeat(i) =>
      if LastTerm(c.nodes[i]) == c.nodes[i].term
      then acks + {Ack(i, c.nodes[i].term, LastIndex(c.nodes[i]), |c.commits|)} else acks
    case _ => acks
  }

  // ----------------------------------------------------------------- invariant

  /** Some leader between the term and the bound lacks the entry. */
  ghost predicate Lost(h: Past, bound: int, term: int, index: int) {
    exists u {:trigger h.leads[u]} :: u in h.leads && term < u <= bound && !At(h.leads[u].log, index, term)
  }

  ghost predicate Secure(h: Past, log: seq<Entry>, bound: int, term: int, index: int) {
    At(log, index, term) || Lost(h, bound, term, index)
  }

  /** One of the first commits was in the term and reached the index. */
  ghost predicate Sealed(commits: seq<Commit>, before: nat, term: int, index: int) {
    exists k {:trigger commits[k]} :: 0 <= k < before && k < |commits| && commits[k].term == term
        && index <= commits[k].index
  }

  /** What a node has acknowledged it still has, unless a later leader lacks it, or it was committed
      already: behind a snapshot whose last entry it acknowledges, a node may have anything. */
  ghost predicate AckHeld(c: State, h: Past, x: Ack) {
    && x.node < |c.nodes| && 1 <= x.term <= c.nodes[x.node].term
    && x.term in h.leads && At(h.leads[x.term].log, x.index, x.term)
    && (Sealed(c.commits, x.before, x.term, x.index)
        || Secure(h, Whole(h, c.nodes[x.node]), c.nodes[x.node].term, x.term, x.index))
  }

  /** A log that ends like this was asked to vote for is up to date with the entry. */
  predicate Covers(a: RequestVoteArgs, term: int, index: int) {
    term < a.lastLogTerm || (term == a.lastLogTerm && index <= a.lastLogIndex)
  }

  /** Whoever votes asks the candidate for everything it has acknowledged. */
  ghost predicate VoteCovers(c: State, h: Past, e: Election, x: Ack) {
    Granted(e, x.node) && x.term < e.args.term ==>
      || Sealed(c.commits, x.before, x.term, x.index)
      || Covers(e.args, x.term, x.index)
      || Lost(h, e.args.term, x.term, x.index)
  }

  /** Until its term has a leader, a candidate has what its log had when it asked for votes. */
  ghost predicate CandidateHolds(c: State, h: Past, e: Election) {
    e.candidate < |c.nodes| && e.args.term == c.nodes[e.candidate].term && e.args.term !in h.leads ==>
      Retains(h, Path(h, e.args.lastLogTerm, e.args.lastLogIndex), Whole(h, c.nodes[e.candidate]), e.args.term)
  }

  ghost predicate Retains(h: Past, f: seq<Entry>, g: seq<Entry>, bound: int) {
    forall term, index {:trigger At(f, index, term)} :: At(f, index, term) ==> Secure(h, g, bound, term, index)
  }

  ghost predicate LeadVoters(nodes: seq<Node>, u: int, voters: set<nat>) {
    && Below(voters, |nodes|) && |voters| >= Quorum(|nodes|)
    && forall v {:trigger v in voters} :: v in voters ==> v < |nodes| && u <= nodes[v].term
  }

  /** A leader has everything its voters had acknowledged, unless an earlier leader lacks it. */
  ghost predicate LeadCovers(c: State, h: Past, u: int, x: Ack) {
    u in h.leads && x.node in h.leads[u].voters && x.term < u ==>
      Sealed(c.commits, x.before, x.term, x.index) || Secure(h, h.leads[u].log, u - 1, x.term, x.index)
  }

  ghost predicate HasAck(acks: set<Ack>, node: nat, term: int, index: int, before: nat) {
    exists x {:trigger x in acks} :: x in acks && x.node == node && x.term == term && x.index == index
        && x.before <= before
  }

  /** Whoever confirmed a round that ends with an entry of its own term has acknowledged it. */
  ghost predicate BeatAcked(acks: set<Ack>, commits: nat, b: Beat) {
    b.endTerm == b.term ==>
      forall s: nat {:trigger b.calls[s]} :: s < |b.calls| && Confirms(b.calls[s]) ==>
          HasAck(acks, s, b.term, b.endIndex, commits)
  }

  /** A commit was acknowledged by a majority before it was recorded. */
  ghost predicate RecordGood(h: Past, acks: set<Ack>, n: nat, m: Commit, k: nat) {
    && Below(m.ackers, n) && |m.ackers| >= Quorum(n) && m.term >= 1
    && m.term in h.leads && At(h.leads[m.term].log, m.index, m.term)
    && forall s {:trigger s in m.ackers} :: s in m.ackers ==> HasAck(acks, s, m.term, m.index, k)
  }

  ghost predicate AcksHeld(c: State, h: Past, acks: set<Ack>) {
    forall x {:trigger AckHeld(c, h, x)} :: x in acks ==> AckHeld(c, h, x)
  }

  ghost predicate VotesCover(c: State, h: Past, acks: set<Ack>) {
    forall e, x {:trigger VoteCovers(c, h, c.elections[e], x)} ::
      0 <= e < |c.elections| && x in acks ==> VoteCovers(c, h, c.elections[e], x)
  }

  ghost predicate CandidatesHold(c: State, h: Past) {
    forall e {:trigger CandidateHolds(c, h, c.elections[e])} :: 0 <= e < |c.elections| ==>
        CandidateHolds(c, h, c.elections[e])
  }

  ghost predicate LeadsCover(c: State, h: Past, acks: set<Ack>) {
    && (forall u {:trigger LeadVoters(c.nodes, u, h.leads[u].voters)} :: u in h.leads ==>
        LeadVoters(c.nodes, u, h.leads[u].voters))
    && (forall u, x {:trigger LeadCovers(c, h, u, x)} :: x in acks ==> LeadCovers(c, h, u, x))
  }

  ghost predicate RecordsGood(c: State, h: Past, acks: set<Ack>) {
    && (forall b {:trigger BeatAcked(acks, |c.commits|, c.beats[b])} :: 0 <= b < |c.beats| ==>
        BeatAcked(acks, |c.commits|, c.beats[b]))
    && (forall k {:trigger RecordGood(h, acks, |c.nodes|, c.commits[k], k)} ::
          0 <= k < |c.commits| ==> RecordGood(h, acks, |c.nodes|, c.commits[k], k))
  }

  ghost predicate Ballots(c: State, h: Past, acks: set<Ack>) {
    && HistoryOf(c, h) && AcksHeld(c, h, acks) && VotesCover(c, h, acks)
    && CandidatesHold(c, h) && LeadsCover(c, h, acks) && RecordsGood(c, h, acks)
  }

  // ------------------------------------------------- what the invariant implies

  /** What is in the log of a term's leader and in another log ties them together up to there. */
  lemma SealedStays(h: Past, u: int, m: Commit, term: int, index: int)
    requires PastInv(h) && u in h.leads && term in h.leads && m.term == term && index <= m.index
    requires At(h.leads[u].log, m.index, m.term) && At(h.leads[term].log, m.index, m.term)
    requires At(h.leads[term].log, index, term)
    ensures At(h.leads[u].log, index, term)
  {
    assert GoodLead(h, u) && GoodLead(h, term);
    SameUpTo(h.paths, h.leads[u].log, h.leads[term].log, m.index);
  }

  /** The node in which the majority behind a commit and the one behind a later leader meet. */
  lemma MeetingAck(c: State, h: Past, acks: set<Ack>, k: nat, u: int) returns (x: Ack)
    requires LeadsCover(c, h, acks) && RecordsGood(c, h, acks) && k < |c.commits| && u in h.leads
    requires c.commits[k].term < u
    ensures x in acks && x.term == c.commits[k].term && x.index == c.commits[k].index && x.before <= k
    ensures Sealed(c.commits, x.before, x.term, x.index) || Secure(h, h.leads[u].log, u - 1, x.term, x.index)
  {
    var m := c.commits[k];
    assert RecordGood(h, acks, |c.nodes|, m, k) && LeadVoters(c.nodes, u, h.leads[u].voters);
    var v := QuorumsMeet(m.ackers, h.leads[u].voters, |c.nodes|);
    x :| x in acks && x.node == v && x.term == m.term && x.index == m.index && x.before <= k;
    assert LeadCovers(c, h, u, x);
  }

  /** Leader Completeness inside one state: a committed entry is in the log of every later leader. */
  lemma {:induction false} ChosenStays(c: State, h: Past, acks: set<Ack>, k: nat, u: int)
    requires PastInv(h) && LeadsCover(c, h, acks) && RecordsGood(c, h, acks)
    requires k < |c.commits| && u in h.leads && c.commits[k].term < u
    ensures At(h.leads[u].log, c.commits[k].index, c.commits[k].term)
    decreases k, u - c.commits[k].term
  {
    var m := c.commits[k];
    if !At(h.leads[u].log, m.index, m.term) {
      var x := MeetingAck(c, h, acks, k, u);
      if Sealed(c.commits, x.before, x.term, x.index) {
        var j :| 0 <= j < x.before && j < |c.commits| && c.commits[j].term == x.term && x.index <= c.commits[j].index;
        ChosenStays(c, h, acks, j, u);
        assert RecordGood(h, acks, |c.nodes|, m, k) && RecordGood(h, acks, |c.nodes|, c.commits[j], j);
        SealedStays(h, u, c.commits[j], m.term, m.index);
      } else {
        var w :| w in h.leads && m.term < w <= u - 1 && !At(h.leads[w].log, m.index, m.term);
        ChosenStays(c, h, acks, k, w);
      }
      assert false;
    }
  }

  /** The first n entries of the log are what a leader of a term up to bound had when it committed. */
  ghost predicate CommittedTo(c: State, h: Past, bound: int, log: seq<Entry>, n: int) {
    0 <= n <= |log| && (n > 0 ==> exists k: nat {:trigger CommittedBy(c, h, bound, log, n, k)} ::
        CommittedBy(c, h, bound, log, n, k))
  }

  predicate CommittedBy(c: State, h: Past, bound: int, log: seq<Entry>, n: int, k: nat) {
    && k < |c.commits| && c.commits[k].term <= bound && n <= c.commits[k].index
    && c.commits[k].term in h.leads && Agree(log, h.leads[c.commits[k].term].log, n)
  }

  lemma ByOnLead(c: State, h: Past, acks: set<Ack>, bound: int, log: seq<Entry>, n: int, k: nat, u: int)
    requires PastInv(h) && LeadsCover(c, h, acks) && RecordsGood(c, h, acks)
    requires CommittedBy(c, h, bound, log, n, k) && u in h.leads && c.commits[k].term <= u
    ensures Agree(log, h.leads[u].log, n)
  {
    var m := c.commits[k];
    if m.term < u {
      ChosenStays(c, h, acks, k, u);
      assert RecordGood(h, acks, |c.nodes|, m, k);
      assert GoodLead(h, u) && GoodLead(h, m.term);
      SameUpTo(h.paths, h.leads[u].log, h.leads[m.term].log, m.index);
    }
  }

  /** What is committed is a part of every later leader's log. */
  lemma CommittedOnLead(c: State, h: Past, acks: set<Ack>, bound: int, log: seq<Entry>, n: int, u: int)
    requires PastInv(h) && LeadsCover(c, h, acks) && RecordsGood(c, h, acks)
    requires CommittedTo(c, h, bound, log, n) && u in h.leads && bound <= u
    ensures Agree(log, h.leads[u].log, n)
  {
    if n > 0 {
      var k: nat :| CommittedBy(c, h, bound, log, n, k);
      ByOnLead(c, h, acks, bound, log, n, k, u);
    }
  }

  /** Two committed logs agree as far as both are committed. */
  lemma CommittedAgree(c: State, h: Past, acks: set<Ack>, bound: int, x: seq<Entry>, n: int,
                       bound': int, y: seq<Entry>, n': int, j: int)
    requires PastInv(h) && LeadsCover(c, h, acks) && RecordsGood(c, h, acks)
    requires CommittedTo(c, h, bound, x, n) && CommittedTo(c, h, bound', y, n') && 0 <= j < n && j < n'
    ensures x[j] == y[j]
  {
    var k: nat :| CommittedBy(c, h, bound, x, n, k);
    var k': nat :| CommittedBy(c, h, bound', y, n', k');
    if c.commits[k].term <= c.commits[k'].term {
      ByOnLead(c, h, acks, bound, x, n, k, c.commits[k'].term);
    } else {
      ByOnLead(c, h, acks, bound', y, n', k', c.commits[k].term);
    }
  }

  // -------------------------------------------------- what a node keeps of its log

  lemma AtIsPath(h: Past, f: seq<Entry>, term: int, index: int)
    requires PastInv(h) && GoodLog(h.paths, f) && At(f, index, term)
    ensures (term, index) in h.paths && term in h.leads && At(h.leads[term].log, index, term) && term >= 1
  {
    assert OnPath(h.paths, f, index - 1) && GoodPath(h, term, index);
    assert h.paths[(term, index)][index - 1] == h.leads[term].log[index - 1];
  }

  lemma MessageSecures(h: Past, f: seq<Entry>, u: int, end: nat, term: int, index: int)
    requires PastInv(h) && GoodLog(h.paths, f) && u in h.leads && end <= |h.leads[u].log|
    requires At(f, index, term) && term <= u
    ensures Secure(h, Laid(f, h.leads[u].log, end), u, term, index)
  {
    AtIsPath(h, f, term, index);
    if end >= |f| && !At(h.leads[u].log, index, term) { assert Lost(h, u, term, index); }
  }

  lemma RetainsMessage(h: Past, f: seq<Entry>, u: int, end: nat)
    requires PastInv(h) && GoodLog(h.paths, f) && u in h.leads && end <= |h.leads[u].log|
    requires forall k :: 0 <= k < |f| ==> f[k].term <= u
    ensures Retains(h, f, Laid(f, h.leads[u].log, end), u)
  {
    forall term, index | At(f, index, term) ensures Secure(h, Laid(f, h.leads[u].log, end), u, term, index) {
      MessageSecures(h, f, u, end, term, index);
    }
  }

  /** A committed snapshot that replaces the log has what the log had, unless a later leader lacks it. */
  lemma SnapSecures(c: State, h: Past, acks: set<Ack>, f: seq<Entry>, p: seq<Entry>, bound: int, term: int, index: int)
    requires PastInv(h) && LeadsCover(c, h, acks) && RecordsGood(c, h, acks)
    requires CommittedTo(c, h, bound, p, |p|) && GoodLog(h.paths, f) && At(f, index, term) && index <= |p|
    ensures Secure(h, p, bound, term, index)
  {
    var k: nat :| CommittedBy(c, h, bound, p, |p|, k);
    var u := c.commits[k].term;
    AtIsPath(h, f, term, index);
    if u < term {
      assert GoodLead(h, term);
      assert NoFall(h.leads[term].log, index - 1, c.commits[k].index - 1);
      ChosenStays(c, h, acks, k, term);
      assert false;
    } else if !At(h.leads[u].log, index, term) {
      assert Lost(h, bound, term, index);
    }
  }

  lemma RetainsSnap(c: State, h: Past, acks: set<Ack>, f: seq<Entry>, p: seq<Entry>, bound: int)
    requires PastInv(h) && LeadsCover(c, h, acks) && RecordsGood(c, h, acks)
    requires CommittedTo(c, h, bound, p, |p|) && GoodLog(h.paths, f)
    ensures Retains(h, f, Laid(f, p, |p|), bound)
  {
    assert p[..|p|] == p;
    forall term, index | At(f, index, term) ensures Secure(h, Laid(f, p, |p|), bound, term, index) {
      if |p| >= |f| { SnapSecures(c, h, acks, f, p, bound, term, index); }
    }
  }

  // --------------------------------------------------------- what is committed

  /** What a node's snapshot covers is committed, and so is its log up to the commit index. Behind a
      snapshot that the log does not fit, nothing is. */
  ghost predicate NodeCommitted(c: State, h: Past, s: Node) {
    && CommittedTo(c, h, s.term, Path(h, s.snapTerm, s.snapIndex), s.snapIndex)
    && if Seam(s, Whole(h, s)) then CommittedTo(c, h, s.term, Whole(h, s), s.commitIndex)
        else s.commitIndex == s.snapIndex
  }

  ghost predicate CallCommitted(c: State, h: Past, term: int, k: AppendCall) {
    HasArgs(k) ==>
      && term in h.leads && 0 <= k.args.leaderCommit <= EndIndex(k.args) <= |h.leads[term].log|
      && CommittedTo(c, h, term, h.leads[term].log, k.args.leaderCommit)
  }

  ghost predicate BeatCommitted(c: State, h: Past, b: Beat) {
    forall s {:trigger CallCommitted(c, h, b.term, b.calls[s])} ::
      0 <= s < |b.calls| ==> CallCommitted(c, h, b.term, b.calls[s])
  }

  ghost predicate SnapCommitted(c: State, h: Past, k: SnapCall) {
    k.SnapPending? || k.SnapReplied? ==>
      CommittedTo(c, h, k.args.term, Path(h, k.args.lastTerm, k.args.lastIndex), k.args.lastIndex)
  }

  ghost predicate Commits(c: State, h: Past) {
    && (forall i {:trigger NodeCommitted(c, h, c.nodes[i])} :: 0 <= i < |c.nodes| ==> NodeCommitted(c, h, c.nodes[i]))
    && (forall b {:trigger BeatCommitted(c, h, c.beats[b])} :: 0 <= b < |c.beats| ==> BeatCommitted(c, h, c.beats[b]))
    && (forall k {:trigger SnapCommitted(c, h, c.snaps[k])} :: 0 <= k < |c.snaps| ==> SnapCommitted(c, h, c.snaps[k]))
  }

  /** Everything committed is kept in place. */
  ghost predicate RaftInv(c: State, h: Past, acks: set<Ack>) {
    Ballots(c, h, acks) && Commits(c, h)
  }

  lemma AnchoredAt(c: State, h: Past, acks: set<Ack>, s: Node)
    requires PastInv(h) && LeadsCover(c, h, acks) && RecordsGood(c, h, acks)
    requires NodePath(h, s) && Sound(s) && NodeCommitted(c, h, s)
    ensures NodeAnchored(h, s)
  {
    var p := Path(h, s.snapTerm, s.snapIndex);
    assert GoodPath(h, s.snapTerm, s.snapIndex);
    forall u | u in h.leads && s.term <= u ensures Anchor(s, p, h.leads[u].log) {
      CommittedOnLead(c, h, acks, s.term, p, s.snapIndex, u);
    }
    if s.status == Leader && s.snapIndex > 0 {
      assert Anchor(s, p, h.leads[s.term].log);
    }
  }

  lemma InvAnchored(c: State, h: Past, acks: set<Ack>)
    requires RaftInv(c, h, acks)
    ensures Anchored(c, h)
  {
    forall i | 0 <= i < |c.nodes| ensures NodeAnchored(h, c.nodes[i]) {
      assert GoodNode(c.nodes, i) && NodePath(h, c.nodes[i]) && NodeCommitted(c, h, c.nodes[i]);
      AnchoredAt(c, h, acks, c.nodes[i]);
    }
  }

  // -------------------------------------------------------------- what a step does

  ghost predicate CommitsStay(commits: seq<Commit>, more: seq<Commit>) {
    |commits| <= |more| && forall k {:trigger more[k]} {:trigger commits[k]} :: 0 <= k < |commits| ==>
        more[k] == commits[k]
  }

  lemma CommitsStep(c: State, a: Action)
    requires Structured(c) && Enabled(c, a)
    ensures CommitsStay(c.commits, Step(c, a).commits)
  {
    CommitsAppended(c, a);
    forall k | 0 <= k < |c.commits| ensures Step(c, a).commits[k] == c.commits[k] {
      assert Step(c, a).commits[..|c.commits|][k] == c.commits[k];
    }
  }

  lemma SealedMore(commits: seq<Commit>, more: seq<Commit>, before: nat, term: int, index: int)
    requires CommitsStay(commits, more) && Sealed(commits, before, term, index)
    ensures Sealed(more, before, term, index)
  {
    var k :| 0 <= k < before && k < |commits| && commits[k].term == term && index <= commits[k].index;
    assert more[k] == commits[k];
  }

  lemma LostMore(g: Past, h: Past, bound: int, bound': int, term: int, index: int)
    requires PastExtends(g, h) && bound <= bound' && Lost(g, bound, term, index)
    ensures Lost(h, bound', term, index)
  {
    var u :| u in g.leads && term < u <= bound && !At(g.leads[u].log, index, term);
    assert LeadExtends(g.leads[u], h.leads[u], u);
    assert u in h.leads && !At(h.leads[u].log, index, term);
  }

  lemma SecureMore(g: Past, h: Past, l: seq<Entry>, m: seq<Entry>, bound: int, bound': int, term: int, index: int)
    requires PastExtends(g, h) && Agree(l, m, |l|) && bound <= bound' && Secure(g, l, bound, term, index)
    ensures Secure(h, m, bound', term, index)
  {
    if !At(l, index, term) { LostMore(g, h, bound, bound', term, index); }
  }

  lemma TakenRetains(h: Past, s: Node, a: AppendEntriesArgs)
    requires PastInv(h) && NodePath(h, s) && Sound(s) && ArgsPath(h, a) && Takes(s, a)
    ensures Retains(h, Whole(h, s), Laid(Whole(h, s), h.leads[a.term].log, EndIndex(a)), a.term)
  {
    TermsBounded(h, s);
    RetainsMessage(h, Whole(h, s), a.term, EndIndex(a));
  }

  lemma AnswererRetains(c: State, h: Past, b: nat, s: nat)
    requires Structured(c) && PastInv(h) && Enabled(c, AnswerAppend(b, s))
    requires NodePath(h, c.nodes[s]) && BeatPath(h, c.beats[b])
    ensures Retains(h, Whole(h, c.nodes[s]), WholeAfter(c, h, AnswerAppend(b, s)),
                    StepAnswerAppend(c, b, s).nodes[s].term)
  {
    var a := c.beats[b].calls[s].args;
    assert GoodBeat(c.nodes, c.beats[b]) && GoodCall(c.beats[b], c.beats[b].calls[s]) && GoodNode(c.nodes, s);
    if Takes(c.nodes[s], a) {
      FollowSame(c.nodes[s], a);
      TakenRetains(h, c.nodes[s], a);
    }
  }

  lemma InstallerRetains(c: State, h: Past, acks: set<Ack>, k: nat)
    requires Structured(c) && PastInv(h) && LeadsCover(c, h, acks) && RecordsGood(c, h, acks)
    requires Enabled(c, AnswerSnap(k))
    requires NodePath(h, c.nodes[c.snaps[k].server]) && SnapPath(h, c.snaps[k]) && SnapCommitted(c, h, c.snaps[k])
    ensures var i := c.snaps[k].server;
            i < |c.nodes|
            && Retains(h, Whole(h, c.nodes[i]), WholeAfter(c, h, AnswerSnap(k)), StepAnswerSnap(c, k).nodes[i].term)
  {
    var i, a := c.snaps[k].server, c.snaps[k].args;
    assert GoodSnap(c.nodes, c.snaps[k]) && GoodNode(c.nodes, i);
    assert GoodPath(h, a.lastTerm, a.lastIndex);
    if TakesSnap(c.nodes[i], a) {
      SnapFollowSame(c.nodes[i], a);
      RetainsSnap(c, h, acks, Whole(h, c.nodes[i]), Path(h, a.lastTerm, a.lastIndex), a.term);
    }
  }

  lemma LeaderAppends(c: State, h: Past, i: nat, command: Command)
    requires Structured(c) && Enabled(c, Submit(i, command)) && NodePath(h, c.nodes[i])
    ensures Agree(Whole(h, c.nodes[i]), WholeAfter(c, h, Submit(i, command)), |Whole(h, c.nodes[i])|)
  {}

  lemma LongerRetains(h: Past, f: seq<Entry>, g: seq<Entry>, bound: int)
    requires Agree(f, g, |f|)
    ensures Retains(h, f, g, bound)
  {}

  lemma ActorRetains(c: State, h: Past, acks: set<Ack>, a: Action, i: nat)
    requires Structured(c) && PathInv(c, h) && LeadsCover(c, h, acks) && RecordsGood(c, h, acks) && Commits(c, h)
    requires Enabled(c, a) && i == Actor(c, a) && i < |c.nodes| == |Step(c, a).nodes|
    ensures Retains(Advance(c, h, a), Whole(h, c.nodes[i]), WholeAfter(c, h, a), Step(c, a).nodes[i].term)
  {
    assert NodePath(h, c.nodes[i]);
    if a.AnswerAppend? {
      assert BeatPath(h, c.beats[a.b]);
      AnswererRetains(c, h, a.b, a.s);
    } else if a.AnswerSnap? {
      assert SnapPath(h, c.snaps[a.k]) && SnapCommitted(c, h, c.snaps[a.k]);
      InstallerRetains(c, h, acks, a.k);
    } else if a.Submit? {
      LeaderAppends(c, h, a.i, a.command);
      LongerRetains(Advance(c, h, a), Whole(h, c.nodes[i]), WholeAfter(c, h, a), Step(c, a).nodes[i].term);
    } else {
      LongerRetains(Advance(c, h, a), Whole(h, c.nodes[i]), Whole(h, c.nodes[i]), Step(c, a).nodes[i].term);
    }
  }

  /** A step, with the facts about it that the other lemmas use. */
  ghost predicate Advances(c: State, h: Past, d: State, h': Past) {
    && PastInv(h) && PastInv(h') && PastExtends(h, h') && CommitsStay(c.commits, d.commits)
        && NodesGrow(c.nodes, d.nodes)
    && forall i {:trigger c.nodes[i]} :: 0 <= i < |c.nodes| ==>
         Retains(h', Whole(h, c.nodes[i]), Whole(h', d.nodes[i]), d.nodes[i].term)
  }

  lemma StepAdvances(c: State, h: Past, acks: set<Ack>, a: Action)
    requires RaftInv(c, h, acks) && Enabled(c, a) && Clean(c, a)
    ensures HistoryOf(Step(c, a), Advance(c, h, a)) && Advances(c, h, Step(c, a), Advance(c, h, a))
  {
    var d, h' := Step(c, a), Advance(c, h, a);
    InvAnchored(c, h, acks);
    PathKept(c, h, a);
    ElectionsStep(c, a);
    IdentityKept(c, a);
    StepGrows(c, a);
    CommitsStep(c, a);
    ActorOnly(c, a);
    var i := Actor(c, a);
    ActorPath(c, h, a, i);
    ActorRetains(c, h, acks, a, i);
    forall j | 0 <= j < |c.nodes| ensures Retains(h', Whole(h, c.nodes[j]), Whole(h', d.nodes[j]), d.nodes[j].term) {
      if j != i { OtherPath(c, h, a, j); }
    }
  }

  // ------------------------------------------------------------ acknowledgements

  /** Behind a snapshot that ends in the term of the message, that end is committed already. */
  lemma EndSealed(c: State, h: Past, s: Node, term: int)
    requires PastInv(h) && NodeCommitted(c, h, s) && s.snapIndex > 0 && IsPath(h, s.snapTerm, s.snapIndex)
    requires s.term <= term == s.snapTerm
    ensures Sealed(c.commits, |c.commits|, term, s.snapIndex)
  {
    var p := Path(h, s.snapTerm, s.snapIndex);
    assert GoodPath(h, s.snapTerm, s.snapIndex);
    var k: nat :| CommittedBy(c, h, s.term, p, s.snapIndex, k);
    var u := c.commits[k].term;
    assert GoodLead(h, u) && p[s.snapIndex - 1] == h.leads[u].log[s.snapIndex - 1];
    assert c.commits[k].term == term;
  }

  lemma EndOnLead(l: seq<Entry>, a: AppendEntriesArgs)
    requires PartOf(l, a) && EndTerm(a) == a.term >= 1
    ensures At(l, EndIndex(a), a.term)
  {
    if a.entries != [] { assert l[EndIndex(a) - 1] == a.entries[|a.entries| - 1]; }
  }

  /** Who answers success then has the last entry of the message, or it is committed already. */
  lemma SuccessHas(c: State, h: Past, s: Node, a: AppendEntriesArgs)
    requires PastInv(h) && NodePath(h, s) && NodeAnchored(h, s) && NodeCommitted(c, h, s)
    requires Sound(s) && Contiguous(a) && ArgsPath(h, a) && CleanAppend(s, a) && Takes(s, a)
    requires EndTerm(a) == a.term >= 1
    ensures At(Whole(h, HandleAppend(s, a).node), EndIndex(a), a.term)
            || Sealed(c.commits, |c.commits|, a.term, EndIndex(a))
  {
    var f, l := Whole(h, s), h.leads[a.term].log;
    AppendPath(h, s, a);
    EndOnLead(l, a);
    if EndIndex(a) < |f| && !Seam(s, f) {
      assert a.entries == [];
      EndSealed(c, h, s, a.term);
    }
  }

  ghost predicate JustAcked(c: State, h: Past, x: Ack) {
    AckHeld(c, h, x) && x.term == c.nodes[x.node].term && x.before == |c.commits|
  }

  lemma SuccessTakes(s: Node, a: AppendEntriesArgs)
    requires Sound(s) && Contiguous(a) && HandleAppend(s, a).reply.success
    ensures Takes(s, a) && HandleAppend(s, a).node.term == a.term
  {
    SuccessHolds(s, a);
    if !Takes(s, a) { NotTaken(s, a); }
  }

  lemma NodeAck(c: State, h: Past, acks: set<Ack>, s: Node, a: AppendEntriesArgs)
    requires PastInv(h) && LeadsCover(c, h, acks) && RecordsGood(c, h, acks)
    requires NodePath(h, s) && NodeCommitted(c, h, s) && Sound(s) && Contiguous(a) && ArgsPath(h, a)
    requires CleanAppend(s, a)
    requires HandleAppend(s, a).reply.success && EndTerm(a) == a.term >= 1
    ensures HandleAppend(s, a).node.term == a.term && At(h.leads[a.term].log, EndIndex(a), a.term)
    ensures At(Whole(h, HandleAppend(s, a).node), EndIndex(a), a.term)
            || Sealed(c.commits, |c.commits|, a.term, EndIndex(a))
  {
    SuccessTakes(s, a);
    AnchoredAt(c, h, acks, s);
    EndOnLead(h.leads[a.term].log, a);
    SuccessHas(c, h, s, a);
  }

  lemma AnsweredAck(c: State, h: Past, acks: set<Ack>, b: nat, v: nat)
    requires RaftInv(c, h, acks) && Enabled(c, AnswerAppend(b, v)) && Clean(c, AnswerAppend(b, v))
    requires Confirms(StepAnswerAppend(c, b, v).beats[b].calls[v]) && c.beats[b].endTerm == c.beats[b].term
    ensures JustAcked(StepAnswerAppend(c, b, v), h, Ack(v, c.beats[b].term, c.beats[b].endIndex, |c.commits|))
  {
    assert GoodBeat(c.nodes, c.beats[b]) && GoodCall(c.beats[b], c.beats[b].calls[v]) && GoodNode(c.nodes, v);
    assert NodePath(h, c.nodes[v]) && BeatPath(h, c.beats[b]) && NodeCommitted(c, h, c.nodes[v]);
    NodeAck(c, h, acks, c.nodes[v], c.beats[b].calls[v].args);
  }

  lemma BuiltAck(c: State, h: Past, i: nat)
    requires HistoryOf(c, h) && Enabled(c, DoHeartBeat(i)) && LastTerm(c.nodes[i]) == c.nodes[i].term
    ensures JustAcked(StepDoHeartBeat(c, i), h, Ack(i, c.nodes[i].term, LastIndex(c.nodes[i]), |c.commits|))
  {
    var s := c.nodes[i];
    assert GoodNode(c.nodes, i) && NodePath(h, s);
    LastIndexSound(s);
    EndIsPath(h, s);
    EndOf(s, Whole(h, s));
  }

  /** Every acknowledgement after a step is older than the step, or was just made. */
  lemma AckOldOrNew(c: State, h: Past, acks: set<Ack>, a: Action, x: Ack)
    requires RaftInv(c, h, acks) && Enabled(c, a) && Clean(c, a) && x in AdvanceAcks(c, acks, a)
    ensures x in acks || JustAcked(Step(c, a), Advance(c, h, a), x)
  {
    if x !in acks {
      if a.AnswerAppend? { AnsweredAck(c, h, acks, a.b, a.s); } else { BuiltAck(c, h, a.i); }
    }
  }

  lemma AckHeldKept(c: State, h: Past, d: State, h': Past, x: Ack)
    requires Advances(c, h, d, h') && AckHeld(c, h, x)
    ensures AckHeld(d, h', x)
  {
    var s, t := c.nodes[x.node], d.nodes[x.node];
    assert Grows(s, t) && LeadExtends(h.leads[x.term], h'.leads[x.term], x.term);
    if Sealed(c.commits, x.before, x.term, x.index) {
      SealedMore(c.commits, d.commits, x.before, x.term, x.index);
    } else if At(Whole(h, s), x.index, x.term) {
      assert Retains(h', Whole(h, s), Whole(h', t), t.term);
    } else {
      LostMore(h, h', s.term, t.term, x.term, x.index);
    }
  }

  // ---------------------------------------------------------------------- votes

  /** A request that a node finds up to date covers all that the node has. */
  ghost predicate CoversAll(f: seq<Entry>, a: RequestVoteArgs) {
    forall term, index {:trigger At(f, index, term)} :: At(f, index, term) ==> Covers(a, term, index)
  }

  lemma UpToDateCovers(h: Past, s: Node, a: RequestVoteArgs)
    requires NodePath(h, s) && Sound(s) && UpToDate(s, a.lastLogIndex, a.lastLogTerm)
    ensures CoversAll(Whole(h, s), a)
  {
    var f := Whole(h, s);
    LastIndexSound(s);
    forall term, index | At(f, index, term) ensures Covers(a, term, index) {
      EndOf(s, f);
      assert NoFall(f, index - 1, |f| - 1);
    }
  }

  ghost predicate JustGranted(c: State, h: Past, e: Election, v: nat) {
    v < |c.nodes| && c.nodes[v].term <= e.args.term && CoversAll(Whole(h, c.nodes[v]), e.args)
  }

  ghost predicate OldGranted(c: State, e: nat, f: Election, v: nat) {
    e < |c.elections| && Granted(c.elections[e], v) && f.args == c.elections[e].args
  }

  lemma AnsweredGrant(c: State, h: Past, e: nat, v: nat)
    requires HistoryOf(c, h) && Enabled(c, AnswerVote(e, v))
    requires Granted(StepAnswerVote(c, e, v).elections[e], v)
    ensures JustGranted(c, h, StepAnswerVote(c, e, v).elections[e], v)
  {
    assert GoodNode(c.nodes, v) && NodePath(h, c.nodes[v]);
    UpToDateCovers(h, c.nodes[v], c.elections[e].args);
  }

  lemma AskedGrant(c: State, h: Past, i: nat, v: nat)
    requires HistoryOf(c, h) && Enabled(c, DoElection(i)) && c.nodes[i].status != Leader
    requires Granted(NewElection(Elect(c.nodes[i]), |c.nodes|), v)
    ensures JustGranted(c, h, NewElection(Elect(c.nodes[i]), |c.nodes|), v)
  {
    assert GoodNode(c.nodes, i) && NodePath(h, c.nodes[i]);
    UpToDateCovers(h, c.nodes[i], VoteRequest(Elect(c.nodes[i])));
  }

  lemma OldGrant(c: State, a: Action, e: nat, v: nat)
    requires Structured(c) && Enabled(c, a) && e < |c.elections|
    requires e < |Step(c, a).elections| && Granted(Step(c, a).elections[e], v)
    requires !(a.AnswerVote? && a.e == e && a.s == v)
    ensures OldGranted(c, e, Step(c, a).elections[e], v)
  {
    if a.HearVote? && a.e == e { assert GoodElection(c.nodes, c.elections[e]); }
  }

  lemma GrantOldOrNew(c: State, h: Past, a: Action, e: nat, v: nat)
    requires HistoryOf(c, h) && Enabled(c, a) && e < |Step(c, a).elections| && Granted(Step(c, a).elections[e], v)
    ensures JustGranted(c, h, Step(c, a).elections[e], v) || OldGranted(c, e, Step(c, a).elections[e], v)
  {
    if a.AnswerVote? && a.e == e && a.s == v {
      AnsweredGrant(c, h, e, v);
    } else if e < |c.elections| {
      OldGrant(c, a, e, v);
    } else {
      assert a.DoElection?;
      AskedGrant(c, h, a.i, v);
    }
  }

  lemma OldVoteCovers(c: State, h: Past, d: State, h': Past, e: Election, f: Election, x: Ack)
    requires Advances(c, h, d, h') && VoteCovers(c, h, e, x) && Granted(e, x.node) && f.args == e.args
    ensures VoteCovers(d, h', f, x)
  {
    if x.term < f.args.term {
      if Sealed(c.commits, x.before, x.term, x.index) { SealedMore(c.commits, d.commits, x.before, x.term, x.index); }
      else if !Covers(f.args, x.term, x.index) { LostMore(h, h', f.args.term, f.args.term, x.term, x.index); }
    }
  }

  lemma NewVoteCovers(c: State, h: Past, d: State, h': Past, f: Election, x: Ack)
    requires Advances(c, h, d, h') && AckHeld(c, h, x) && JustGranted(c, h, f, x.node)
    ensures VoteCovers(d, h', f, x)
  {
    if x.term < f.args.term {
      if Sealed(c.commits, x.before, x.term, x.index) {
        SealedMore(c.commits, d.commits, x.before, x.term, x.index);
      } else if !At(Whole(h, c.nodes[x.node]), x.index, x.term) {
        LostMore(h, h', c.nodes[x.node].term, f.args.term, x.term, x.index);
      }
    }
  }

  lemma VoteCoversKept(c: State, h: Past, d: State, h': Past, acks: set<Ack>, e: nat, f: Election, x: Ack)
    requires Advances(c, h, d, h') && VotesCover(c, h, acks) && AcksHeld(c, h, acks)
    requires Granted(f, x.node) ==> JustGranted(c, h, f, x.node) || OldGranted(c, e, f, x.node)
    requires x in acks
    ensures VoteCovers(d, h', f, x)
  {
    if Granted(f, x.node) {
      assert AckHeld(c, h, x);
      if JustGranted(c, h, f, x.node) {
        NewVoteCovers(c, h, d, h', f, x);
      } else {
        assert VoteCovers(c, h, c.elections[e], x);
        OldVoteCovers(c, h, d, h', c.elections[e], f, x);
      }
    }
  }

  // ----------------------------------------------------------------- candidates

  lemma OldCandidateHolds(c: State, h: Past, d: State, h': Past, e: Election, f: Election)
    requires Advances(c, h, d, h') && CandidateHolds(c, h, e) && VotePath(h, e) && GoodElection(c.nodes, e)
    requires f.args == e.args && f.candidate == e.candidate
    ensures CandidateHolds(d, h', f)
  {
    var s, t, u := c.nodes[e.candidate], d.nodes[e.candidate], e.args.term;
    assert Grows(s, t);
    if u == t.term && u !in h'.leads {
      PathExtends(h, h', e.args.lastLogTerm, e.args.lastLogIndex);
      var p := Path(h, e.args.lastLogTerm, e.args.lastLogIndex);
      assert Retains(h, p, Whole(h, s), u) && Retains(h', Whole(h, s), Whole(h', t), u);
      forall term, index | At(p, index, term) ensures Secure(h', Whole(h', t), u, term, index) {
        assert Secure(h, Whole(h, s), u, term, index);
        if !At(Whole(h, s), index, term) { LostMore(h, h', u, u, term, index); }
      }
    }
  }

  lemma NewCandidateHolds(c: State, h: Past, i: nat)
    requires HistoryOf(c, h) && Enabled(c, DoElection(i)) && c.nodes[i].status != Leader
    ensures CandidateHolds(StepDoElection(c, i), h, NewElection(Elect(c.nodes[i]), |c.nodes|))
  {
    var s, t := c.nodes[i], Elect(c.nodes[i]);
    assert GoodNode(c.nodes, i) && NodePath(h, s);
    LastIndexSound(s);
    assert Whole(h, t) == Whole(h, s) == Path(h, VoteRequest(t).lastLogTerm, VoteRequest(t).lastLogIndex);
  }

  lemma CandidatesKept(c: State, h: Past, a: Action, e: nat)
    requires HistoryOf(c, h) && CandidatesHold(c, h) && Enabled(c, a) && e < |Step(c, a).elections|
    requires Advances(c, h, Step(c, a), Advance(c, h, a))
    ensures CandidateHolds(Step(c, a), Advance(c, h, a), Step(c, a).elections[e])
  {
    if e < |c.elections| {
      StepExtends(c, a);
      assert GoodElection(c.nodes, c.elections[e]) && VotePath(h, c.elections[e])
          && CandidateHolds(c, h, c.elections[e]);
      OldCandidateHolds(c, h, Step(c, a), Advance(c, h, a), c.elections[e], Step(c, a).elections[e]);
    } else {
      NewCandidateHolds(c, h, a.i);
    }
  }

  // -------------------------------------------------------------------- leaders

  /** A log that was up to date with an entry has it, unless a leader before lacks it. */
  lemma CoveredPath(h: Past, a: RequestVoteArgs, term: int, index: int)
    requires PastInv(h) && IsPath(h, a.lastLogTerm, a.lastLogIndex) && Covers(a, term, index)
    requires term in h.leads && At(h.leads[term].log, index, term) && term >= 1
    ensures Secure(h, Path(h, a.lastLogTerm, a.lastLogIndex), a.lastLogTerm, term, index)
  {
    var u, end := a.lastLogTerm, a.lastLogIndex;
    var path := Path(h, u, end);
    assert GoodPath(h, u, end) && GoodLead(h, u);
    assert path[end - 1] == h.leads[u].log[end - 1];
    if !At(h.leads[u].log, index, term) {
      assert Lost(h, u, term, index);
    } else if end <= index {
      assert NoFall(h.leads[u].log, end - 1, index - 1);
    }
  }

  lemma LeadVotersGrow(m: seq<Node>, n: seq<Node>, u: int, voters: set<nat>)
    requires LeadVoters(m, u, voters) && NodesGrow(m, n)
    ensures LeadVoters(n, u, voters)
  {
    forall v | v in voters ensures v < |n| && u <= n[v].term {
      assert Grows(m[v], n[v]);
    }
  }

  lemma OldLeadCovers(c: State, h: Past, d: State, h': Past, u: int, x: Ack)
    requires Advances(c, h, d, h') && u in h.leads && LeadCovers(c, h, u, x)
    ensures LeadCovers(d, h', u, x)
  {
    var l, m := h.leads[u], h'.leads[u];
    assert LeadExtends(l, m, u);
    if x.node in m.voters && x.term < u {
      if Sealed(c.commits, x.before, x.term, x.index) { SealedMore(c.commits, d.commits, x.before, x.term, x.index); }
      else { SecureMore(h, h', l.log, m.log, u - 1, u - 1, x.term, x.index); }
    }
  }

  lemma LostBefore(h: Past, u: int, term: int, index: int)
    requires Lost(h, u, term, index) && u !in h.leads
    ensures Lost(h, u - 1, term, index)
  {
    var w :| w in h.leads && term < w <= u && !At(h.leads[w].log, index, term);
    assert w != u;
  }

  /** Whoever wins has everything its voters had acknowledged. */
  lemma WinnerCovers(c: State, h: Past, e: Election, x: Ack)
    requires PastInv(h) && AckHeld(c, h, x) && VoteCovers(c, h, e, x) && CandidateHolds(c, h, e) && VotePath(h, e)
    requires e.candidate < |c.nodes| && e.args.term == c.nodes[e.candidate].term && e.args.term !in h.leads
    requires Granted(e, x.node) && x.term < e.args.term
    ensures Sealed(c.commits, x.before, x.term, x.index)
            || Secure(h, Whole(h, c.nodes[e.candidate]), e.args.term - 1, x.term, x.index)
  {
    var a := e.args;
    if !Sealed(c.commits, x.before, x.term, x.index) {
      if Covers(a, x.term, x.index) {
        CoveredPath(h, a, x.term, x.index);
        if At(Path(h, a.lastLogTerm, a.lastLogIndex), x.index, x.term) {
          assert Secure(h, Whole(h, c.nodes[e.candidate]), a.term, x.term, x.index);
        } else {
          LostMore(h, h, a.lastLogTerm, a.term, x.term, x.index);
        }
      }
      if Lost(h, a.term, x.term, x.index) { LostBefore(h, a.term, x.term, x.index); }
    }
  }

  lemma NewVoters(c: State, e: nat, s: nat)
    requires SafeSoFar(c) && Enabled(c, HearVote(e, s)) && SafeSoFar(StepHearVote(c, e, s))
    requires StepHearVote(c, e, s).elections[e].wins > c.elections[e].wins
    ensures LeadVoters(StepHearVote(c, e, s).nodes, c.elections[e].args.term,
                       Voters(StepHearVote(c, e, s).elections[e]))
    ensures forall v {:trigger v in Voters(StepHearVote(c, e, s).elections[e])} ::
              v in Voters(StepHearVote(c, e, s).elections[e]) ==> Granted(c.elections[e], v)
  {
    var d := StepHearVote(c, e, s);
    var el, el' := c.elections[e], d.elections[e];
    assert CountsVoters(el) && CountsVoters(el') && GoodElection(c.nodes, el);
    assert GoodNode(c.nodes, el.candidate);
    WonByQuorum(el');
    forall v | v in Voters(el') ensures v < |d.nodes| && Granted(el, v) && el.args.term <= d.nodes[v].term {
      assert VoteBinds(d.nodes, el', v);
    }
  }

  lemma NewLeadIs(c: State, h: Past, e: nat, s: nat)
    requires HistoryOf(c, h) && Enabled(c, HearVote(e, s))
    requires StepHearVote(c, e, s).elections[e].wins > c.elections[e].wins
    ensures var el := c.elections[e]; var h' := Advance(c, h, HearVote(e, s));
            && el.candidate < |c.nodes| && el.args.term == c.nodes[el.candidate].term && el.args.term !in h.leads
            && h' == Won(h, el.args.term, Whole(h, c.nodes[el.candidate]), Voters(StepHearVote(c, e, s).elections[e]))
  {
    WinFresh(c, h, e, s);
    HeardAdvance(c, h, e, s);
  }

  lemma NewLeadCovers(c: State, h: Past, d: State, h': Past, e: Election, x: Ack)
    requires Advances(c, h, d, h') && AckHeld(c, h, x) && VoteCovers(c, h, e, x) && CandidateHolds(c, h, e)
    requires VotePath(h, e)
    requires e.candidate < |c.nodes| && e.args.term == c.nodes[e.candidate].term && e.args.term !in h.leads
    requires e.args.term in h'.leads && h'.leads[e.args.term].log == Whole(h, c.nodes[e.candidate])
    requires x.node in h'.leads[e.args.term].voters ==> Granted(e, x.node)
    ensures LeadCovers(d, h', e.args.term, x)
  {
    var u := e.args.term;
    if x.node in h'.leads[u].voters && x.term < u {
      WinnerCovers(c, h, e, x);
      if Sealed(c.commits, x.before, x.term, x.index) { SealedMore(c.commits, d.commits, x.before, x.term, x.index); }
      else { SecureMore(h, h', h'.leads[u].log, h'.leads[u].log, u - 1, u - 1, x.term, x.index); }
    }
  }

  lemma WonLeadCovers(c: State, h: Past, acks: set<Ack>, d: State, h': Past, e: nat, s: nat, x: Ack)
    requires Ballots(c, h, acks) && x in acks && Enabled(c, HearVote(e, s)) && Advances(c, h, d, h')
    requires d == StepHearVote(c, e, s) && SafeSoFar(d) && d.elections[e].wins > c.elections[e].wins
    requires h' == Advance(c, h, HearVote(e, s))
    ensures LeadCovers(d, h', c.elections[e].args.term, x)
  {
    NewVoters(c, e, s);
    NewLeadIs(c, h, e, s);
    assert AckHeld(c, h, x) && VoteCovers(c, h, c.elections[e], x);
    assert CandidateHolds(c, h, c.elections[e]) && VotePath(h, c.elections[e]);
    NewLeadCovers(c, h, d, h', c.elections[e], x);
  }

  lemma LeadSource(c: State, h: Past, a: Action, u: int)
    requires Structured(c) && Enabled(c, a) && u in Advance(c, h, a).leads && u !in h.leads
    ensures a.HearVote? && u == c.elections[a.e].args.term
            && StepHearVote(c, a.e, a.s).elections[a.e].wins > c.elections[a.e].wins
  {}

  lemma LeadCoversKept(c: State, h: Past, acks: set<Ack>, a: Action, u: int, x: Ack)
    requires Ballots(c, h, acks) && Enabled(c, a) && x in acks && SafeSoFar(Step(c, a))
    requires Advances(c, h, Step(c, a), Advance(c, h, a))
    ensures LeadCovers(Step(c, a), Advance(c, h, a), u, x)
  {
    if u in h.leads {
      assert LeadCovers(c, h, u, x);
      OldLeadCovers(c, h, Step(c, a), Advance(c, h, a), u, x);
    } else if u in Advance(c, h, a).leads {
      LeadSource(c, h, a, u);
      WonLeadCovers(c, h, acks, Step(c, a), Advance(c, h, a), a.e, a.s, x);
    }
  }

  lemma LeadVotersKept(c: State, h: Past, acks: set<Ack>, a: Action, u: int)
    requires Ballots(c, h, acks) && Enabled(c, a) && SafeSoFar(Step(c, a)) && u in Advance(c, h, a).leads
    requires Advances(c, h, Step(c, a), Advance(c, h, a))
    ensures LeadVoters(Step(c, a).nodes, u, Advance(c, h, a).leads[u].voters)
  {
    if u in h.leads {
      assert LeadVoters(c.nodes, u, h.leads[u].voters);
      assert LeadExtends(h.leads[u], Advance(c, h, a).leads[u], u);
      LeadVotersGrow(c.nodes, Step(c, a).nodes, u, h.leads[u].voters);
    } else {
      LeadSource(c, h, a, u);
      NewVoters(c, a.e, a.s);
      NewLeadIs(c, h, a.e, a.s);
    }
  }

  // ------------------------------------------------------------------- commits

  lemma HasAckMore(acks: set<Ack>, more: set<Ack>, node: nat, term: int, index: int, before: nat, before': nat)
    requires HasAck(acks, node, term, index, before) && acks <= more && before <= before'
    ensures HasAck(more, node, term, index, before')
  {}

  lemma AcksGrow(c: State, acks: set<Ack>, a: Action)
    requires Structured(c) && Enabled(c, a)
    ensures acks <= AdvanceAcks(c, acks, a)
  {}

  lemma BeatAckedMore(acks: set<Ack>, more: set<Ack>, n: nat, n': nat, b: Beat, b': Beat, s: nat)
    requires BeatAcked(acks, n, b) && acks <= more && n <= n' && SameRound(b, b')
    requires forall k: nat {:trigger b'.calls[k]} :: k < |b'.calls| && k != s && Confirms(b'.calls[k]) ==>
        Confirms(b.calls[k])
    requires s < |b'.calls| && Confirms(b'.calls[s]) && b'.endTerm == b'.term ==>
               Confirms(b.calls[s]) || HasAck(more, s, b'.term, b'.endIndex, n')
    ensures BeatAcked(more, n', b')
  {
    if b'.endTerm == b'.term {
      forall k: nat | k < |b'.calls| && Confirms(b'.calls[k]) ensures HasAck(more, k, b'.term, b'.endIndex, n') {
        if Confirms(b.calls[k]) { HasAckMore(acks, more, k, b.term, b.endIndex, n, n'); }
      }
    }
  }

  lemma AnsweredBeatAcked(c: State, acks: set<Ack>, b: nat, s: nat)
    requires Structured(c) && Enabled(c, AnswerAppend(b, s)) && BeatAcked(acks, |c.commits|, c.beats[b])
    ensures BeatAcked(AdvanceAcks(c, acks, AnswerAppend(b, s)), |c.commits|, StepAnswerAppend(c, b, s).beats[b])
  {
    var more, b' := AdvanceAcks(c, acks, AnswerAppend(b, s)), StepAnswerAppend(c, b, s).beats[b];
    if Confirms(b'.calls[s]) && b'.endTerm == b'.term {
      assert Ack(s, b'.term, b'.endIndex, |c.commits|) in more;
    }
    BeatAckedMore(acks, more, |c.commits|, |c.commits|, c.beats[b], b', s);
  }

  lemma BuiltBeatAcked(c: State, acks: set<Ack>, i: nat)
    requires Structured(c) && Enabled(c, DoHeartBeat(i)) && GoodNode(c.nodes, i)
    ensures BeatAcked(AdvanceAcks(c, acks, DoHeartBeat(i)), |c.commits|, NewBeat(c.nodes[i]))
  {
    var s, b := c.nodes[i], NewBeat(c.nodes[i]);
    if b.endTerm == b.term {
      forall k: nat | k < |b.calls| && Confirms(b.calls[k])
        ensures HasAck(AdvanceAcks(c, acks, DoHeartBeat(i)), k, b.term, b.endIndex, |c.commits|)
      {
        assert b.calls[k] == CallFor(DispatchTo(s, k));
        assert Ack(i, s.term, LastIndex(s), |c.commits|) in AdvanceAcks(c, acks, DoHeartBeat(i));
      }
    }
  }

  lemma OtherBeatAcked(c: State, acks: set<Ack>, a: Action, b: nat, more: set<Ack>, n: nat)
    requires Structured(c) && Enabled(c, a) && b < |c.beats| && !(a.AnswerAppend? && a.b == b)
    requires BeatAcked(acks, |c.commits|, c.beats[b]) && acks <= more && |c.commits| <= n
    ensures b < |Step(c, a).beats| && BeatAcked(more, n, Step(c, a).beats[b])
  {
    RoundsLast(c, a, b);
    BeatAckedMore(acks, more, |c.commits|, n, c.beats[b], Step(c, a).beats[b], |c.beats[b].calls|);
  }

  lemma BeatAckedKept(c: State, h: Past, acks: set<Ack>, a: Action, b: nat)
    requires Structured(c) && RecordsGood(c, h, acks) && Enabled(c, a) && b < |Step(c, a).beats|
    ensures BeatAcked(AdvanceAcks(c, acks, a), |Step(c, a).commits|, Step(c, a).beats[b])
  {
    CommitsStep(c, a);
    AcksGrow(c, acks, a);
    if b < |c.beats| {
      assert BeatAcked(acks, |c.commits|, c.beats[b]);
      if a.AnswerAppend? && a.b == b { AnsweredBeatAcked(c, acks, b, a.s); }
      else { OtherBeatAcked(c, acks, a, b, AdvanceAcks(c, acks, a), |Step(c, a).commits|); }
    } else {
      assert GoodNode(c.nodes, a.i);
      BuiltBeatAcked(c, acks, a.i);
    }
  }

  lemma RecordMore(h: Past, h': Past, acks: set<Ack>, more: set<Ack>, n: nat, m: Commit, k: nat)
    requires RecordGood(h, acks, n, m, k) && PastExtends(h, h') && acks <= more
    ensures RecordGood(h', more, n, m, k)
  {
    assert LeadExtends(h.leads[m.term], h'.leads[m.term], m.term);
    forall s | s in m.ackers ensures HasAck(more, s, m.term, m.index, k) {
      HasAckMore(acks, more, s, m.term, m.index, k, k);
    }
  }

  /** The commit branch runs only for a round that a majority has acknowledged. */
  lemma CommitAcked(c: State, h: Past, acks: set<Ack>, b: nat, s: nat)
    requires Structured(c) && Enabled(c, HearAppend(b, s)) && CountsAckers(c.beats[b])
    requires BeatPath(h, c.beats[b]) && BeatAcked(acks, |c.commits|, c.beats[b])
    requires StepHearAppend(c, b, s).commits != c.commits
    ensures |StepHearAppend(c, b, s).commits| == |c.commits| + 1
    ensures RecordGood(h, acks, |c.nodes|, StepHearAppend(c, b, s).commits[|c.commits|], |c.commits|)
  {
    var d, beat := StepHearAppend(c, b, s), c.beats[b];
    assert GoodBeat(c.nodes, beat) && GoodCall(beat, beat.calls[s]);
    AckersHeard(c, b, s);
    assert |d.commits| == |c.commits| + 1;
    var m := d.commits[|c.commits|];
    assert m.term == beat.term && m.index == beat.endIndex && beat.endTerm == beat.term
        && m.ackers == Ackers(d.beats[b]);
    forall k | k in m.ackers ensures k < |beat.calls| && HasAck(acks, k, m.term, m.index, |c.commits|) {
      assert Confirms(beat.calls[k]);
    }
  }

  lemma NewRecordGood(c: State, h: Past, acks: set<Ack>, a: Action, h': Past)
    requires Ballots(c, h, acks) && QuorumInv(c) && Enabled(c, a) && |Step(c, a).commits| > |c.commits|
    requires PastExtends(h, h')
    ensures |Step(c, a).commits| == |c.commits| + 1
    ensures RecordGood(h', AdvanceAcks(c, acks, a), |c.nodes|, Step(c, a).commits[|c.commits|], |c.commits|)
  {
    CommitSource(c, a);
    assert CountsAckers(c.beats[a.b]) && BeatPath(h, c.beats[a.b]) && BeatAcked(acks, |c.commits|, c.beats[a.b]);
    CommitAcked(c, h, acks, a.b, a.s);
    RecordMore(h, h', acks, acks, |c.nodes|, Step(c, a).commits[|c.commits|], |c.commits|);
  }

  lemma RecordKept(c: State, h: Past, acks: set<Ack>, a: Action, h': Past, k: nat)
    requires Ballots(c, h, acks) && QuorumInv(c) && Enabled(c, a) && k < |Step(c, a).commits| && PastExtends(h, h')
    ensures RecordGood(h', AdvanceAcks(c, acks, a), |c.nodes|, Step(c, a).commits[k], k)
  {
    CommitsStep(c, a);
    if k < |c.commits| {
      AcksGrow(c, acks, a);
      assert Step(c, a).commits[k] == c.commits[k] && RecordGood(h, acks, |c.nodes|, c.commits[k], k);
      RecordMore(h, h', acks, AdvanceAcks(c, acks, a), |c.nodes|, c.commits[k], k);
    } else {
      NewRecordGood(c, h, acks, a, h');
    }
  }

  // ------------------------------------------------------- every step keeps it

  lemma AcksKept(c: State, h: Past, acks: set<Ack>, a: Action, x: Ack)
    requires RaftInv(c, h, acks) && Enabled(c, a) && Clean(c, a) && x in AdvanceAcks(c, acks, a)
    requires Advances(c, h, Step(c, a), Advance(c, h, a))
    ensures AckHeld(Step(c, a), Advance(c, h, a), x)
  {
    AckOldOrNew(c, h, acks, a, x);
    if x in acks {
      assert AckHeld(c, h, x);
      AckHeldKept(c, h, Step(c, a), Advance(c, h, a), x);
    }
  }

  /** A vote for a later term was given after all that the voter acknowledged in its term. */
  lemma FreshVoteCovers(d: State, h: Past, e: Election, x: Ack)
    requires JustAcked(d, h, x) && VoteBinds(d.nodes, e, x.node)
    ensures VoteCovers(d, h, e, x)
  {}

  lemma VotesKept(c: State, h: Past, acks: set<Ack>, a: Action, e: nat, x: Ack)
    requires RaftInv(c, h, acks) && Enabled(c, a) && Clean(c, a) && x in AdvanceAcks(c, acks, a)
    requires Advances(c, h, Step(c, a), Advance(c, h, a)) && HistoryOf(Step(c, a), Advance(c, h, a))
    requires e < |Step(c, a).elections|
    ensures VoteCovers(Step(c, a), Advance(c, h, a), Step(c, a).elections[e], x)
  {
    var d, h' := Step(c, a), Advance(c, h, a);
    AckOldOrNew(c, h, acks, a, x);
    if x !in acks {
      assert VoteBinds(d.nodes, d.elections[e], x.node);
      FreshVoteCovers(d, h', d.elections[e], x);
    } else {
      if Granted(d.elections[e], x.node) { GrantOldOrNew(c, h, a, e, x.node); }
      VoteCoversKept(c, h, d, h', acks, e, d.elections[e], x);
    }
  }

  lemma FreshLeadCovers(d: State, h: Past, u: int, x: Ack)
    requires JustAcked(d, h, x) && (u in h.leads ==> LeadVoters(d.nodes, u, h.leads[u].voters))
    ensures LeadCovers(d, h, u, x)
  {}

  lemma LeadsKept(c: State, h: Past, acks: set<Ack>, a: Action, u: int, x: Ack)
    requires RaftInv(c, h, acks) && Enabled(c, a) && Clean(c, a) && x in AdvanceAcks(c, acks, a)
    requires Advances(c, h, Step(c, a), Advance(c, h, a)) && SafeSoFar(Step(c, a))
    ensures LeadCovers(Step(c, a), Advance(c, h, a), u, x)
  {
    AckOldOrNew(c, h, acks, a, x);
    if x in acks {
      LeadCoversKept(c, h, acks, a, u, x);
    } else {
      if u in Advance(c, h, a).leads { LeadVotersKept(c, h, acks, a, u); }
      FreshLeadCovers(Step(c, a), Advance(c, h, a), u, x);
    }
  }

  lemma LeadsCoverKept(c: State, h: Past, acks: set<Ack>, a: Action)
    requires RaftInv(c, h, acks) && Enabled(c, a) && Clean(c, a)
    requires Advances(c, h, Step(c, a), Advance(c, h, a)) && SafeSoFar(Step(c, a))
    ensures LeadsCover(Step(c, a), Advance(c, h, a), AdvanceAcks(c, acks, a))
  {
    var d, h', more := Step(c, a), Advance(c, h, a), AdvanceAcks(c, acks, a);
    forall u | u in h'.leads ensures LeadVoters(d.nodes, u, h'.leads[u].voters) { LeadVotersKept(c, h, acks, a, u); }
    forall u, x | x in more ensures LeadCovers(d, h', u, x) { LeadsKept(c, h, acks, a, u, x); }
  }

  lemma RecordsKept(c: State, h: Past, acks: set<Ack>, a: Action, h': Past)
    requires Ballots(c, h, acks) && QuorumInv(c) && Enabled(c, a) && PastExtends(h, h')
    ensures RecordsGood(Step(c, a), h', AdvanceAcks(c, acks, a))
  {
    var d, more := Step(c, a), AdvanceAcks(c, acks, a);
    ActorOnly(c, a);
    forall b | 0 <= b < |d.beats| ensures BeatAcked(more, |d.commits|, d.beats[b]) { BeatAckedKept(c, h, acks, a, b); }
    forall k | 0 <= k < |d.commits| ensures RecordGood(h', more, |d.nodes|, d.commits[k], k) {
      RecordKept(c, h, acks, a, h', k);
    }
  }

  lemma BallotsKept(c: State, h: Past, acks: set<Ack>, a: Action)
    requires RaftInv(c, h, acks) && QuorumInv(c) && Enabled(c, a) && Clean(c, a)
    ensures Ballots(Step(c, a), Advance(c, h, a), AdvanceAcks(c, acks, a))
    ensures Advances(c, h, Step(c, a), Advance(c, h, a))
  {
    var d, h', more := Step(c, a), Advance(c, h, a), AdvanceAcks(c, acks, a);
    StepAdvances(c, h, acks, a);
    forall x | x in more ensures AckHeld(d, h', x) { AcksKept(c, h, acks, a, x); }
    forall e, x | 0 <= e < |d.elections| && x in more ensures VoteCovers(d, h', d.elections[e], x) {
      VotesKept(c, h, acks, a, e, x);
    }
    forall e | 0 <= e < |d.elections| ensures CandidateHolds(d, h', d.elections[e]) { CandidatesKept(c, h, a, e); }
    LeadsCoverKept(c, h, acks, a);
    RecordsKept(c, h, acks, a, h');
  }
}
