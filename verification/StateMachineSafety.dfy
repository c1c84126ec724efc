/** State Machine Safety: the theorems about whole runs that follow from the ballots. */
module StateMachineSafety {
  import opened KvTypes
  import opened RaftNode
  import opened Cluster
  import opened Quorums
  import opened ElectionSafety
  import opened EntryIdentity
  import opened CommitQuorum
  import opened LogPaths
  import opened LeaderCompleteness

  // ------------------------------------------------------ what stays committed

  lemma CommittedMore(c: State, h: Past, d: State, h': Past, bound: int, bound': int, log: seq<Entry>, n: int)
    requires CommittedTo(c, h, bound, log, n) && CommitsStay(c.commits, d.commits) && PastExtends(h, h')
    requires bound <= bound'
    ensures CommittedTo(d, h', bound', log, n)
  {
    if n > 0 {
      var k: nat :| CommittedBy(c, h, bound, log, n, k);
      var u := c.commits[k].term;
      assert d.commits[k] == c.commits[k] && LeadExtends(h.leads[u], h'.leads[u], u);
      assert CommittedBy(d, h', bound', log, n, k);
    }
  }

  /** A log that agrees with a committed one is committed as far. */
  lemma CommittedLike(c: State, h: Past, bound: int, x: seq<Entry>, n: int, y: seq<Entry>, m: int)
    requires CommittedTo(c, h, bound, x, n) && 0 <= m <= n && Agree(x, y, m)
    ensures CommittedTo(c, h, bound, y, m)
  {
    if m > 0 {
      var k: nat :| CommittedBy(c, h, bound, x, n, k);
      assert CommittedBy(c, h, bound, y, m, k);
    }
  }

  // ----------------------------------------------------------- nodes and commits

  /** A node whose log, commit index and snapshot stay, in any later state. */
  lemma SameCommitted(c: State, h: Past, d: State, h': Past, s: Node, t: Node)
    requires NodeCommitted(c, h, s) && CommitsStay(c.commits, d.commits) && PastExtends(h, h')
    requires PastInv(h) && PastInv(h') && IsPath(h, s.snapTerm, s.snapIndex)
    requires t.commitIndex == s.commitIndex && t.snapIndex == s.snapIndex && t.snapTerm == s.snapTerm
    requires s.term <= t.term
    requires Whole(h', t) == Whole(h, s)
    ensures NodeCommitted(d, h', t)
  {
    PathExtends(h, h', s.snapTerm, s.snapIndex);
    CommittedMore(c, h, d, h', s.term, t.term, Path(h, s.snapTerm, s.snapIndex), s.snapIndex);
    if Seam(s, Whole(h, s)) { CommittedMore(c, h, d, h', s.term, t.term, Whole(h, s), s.commitIndex); }
  }

  /** A leader that appends. */
  lemma GrownCommitted(c: State, h: Past, d: State, h': Past, s: Node, t: Node)
    requires NodeCommitted(c, h, s) && CommitsStay(c.commits, d.commits) && PastExtends(h, h')
    requires PastInv(h) && PastInv(h') && IsPath(h, s.snapTerm, s.snapIndex)
    requires t.commitIndex == s.commitIndex && t.snapIndex == s.snapIndex && t.snapTerm == s.snapTerm
    requires s.term <= t.term
    requires Agree(Whole(h, s), Whole(h', t), |Whole(h, s)|) && Seam(s, Whole(h, s))
    ensures NodeCommitted(d, h', t)
  {
    PathExtends(h, h', s.snapTerm, s.snapIndex);
    CommittedMore(c, h, d, h', s.term, t.term, Path(h, s.snapTerm, s.snapIndex), s.snapIndex);
    CommittedMore(c, h, d, h', s.term, t.term, Whole(h, s), s.commitIndex);
    CommittedLike(d, h', t.term, Whole(h, s), s.commitIndex, Whole(h', t), s.commitIndex);
  }

  /** Compaction goes no further than the commit index, so not at all behind a snapshot that the log
      does not fit. */
  lemma CompactedCommitted(c: State, h: Past, s: Node, index: int, data: Image)
    requires PastInv(h) && NodePath(h, s) && Sound(s) && NodeCommitted(c, h, s)
    ensures NodeCommitted(c, h, Compact(s, index, data))
  {
    var f, t := Whole(h, s), Compact(s, index, data);
    CompactedPath(h, s, index, data);
    if s.snapIndex < index <= s.commitIndex {
      assert s.logs[index - s.snapIndex - 1] == f[index - 1];
      assert OnPath(h.paths, f, index - 1);
      CommittedLike(c, h, s.term, f, s.commitIndex, Path(h, t.snapTerm, index), index);
    }
  }

  /** The commit index after a message was taken. */
  function CommitAfter(commitIndex: int, leaderCommit: int, top: nat): int {
    if leaderCommit > commitIndex then Min(leaderCommit, top) else commitIndex
  }

  lemma TakenCommitIndex(s: Node, a: AppendEntriesArgs)
    requires Sound(s) && Contiguous(a) && Takes(s, a)
    ensures var t := HandleAppend(s, a).node;
            t.commitIndex == CommitAfter(s.commitIndex, a.leaderCommit, Top(t)) && t.term == a.term
  {
    FollowSame(s, a);
  }

  /** A message that replaces the log: what was committed before, and what comes with the message, is a
      part of the leader's log. */
  lemma LongCommitted(c: State, h: Past, bound: int, l: seq<Entry>, end: nat, n: int, leaderCommit: int)
    requires end <= |l| && 0 <= n <= end && 0 <= leaderCommit <= end
    requires CommittedTo(c, h, bound, l, n) && CommittedTo(c, h, bound, l, leaderCommit)
    ensures CommittedTo(c, h, bound, l[..end], CommitAfter(n, leaderCommit, end))
  {
    var k := CommitAfter(n, leaderCommit, end);
    CommittedLike(c, h, bound, l, k, l[..end], k);
  }

  /** What a node has committed is a part of a later leader's log. */
  lemma OwnOnLead(c: State, h: Past, acks: set<Ack>, s: Node, u: int)
    requires PastInv(h) && LeadsCover(c, h, acks) && RecordsGood(c, h, acks)
    requires NodeCommitted(c, h, s) && u in h.leads && s.term <= u && IsPath(h, s.snapTerm, s.snapIndex)
    ensures CommittedTo(c, h, u, h.leads[u].log, s.commitIndex)
  {
    var f, p, l := Whole(h, s), Path(h, s.snapTerm, s.snapIndex), h.leads[u].log;
    if Seam(s, f) {
      CommittedOnLead(c, h, acks, s.term, f, s.commitIndex, u);
      CommittedLike(c, h, s.term, f, s.commitIndex, l, s.commitIndex);
      CommittedMoreHere(c, h, s.term, u, l, s.commitIndex);
    } else {
      CommittedOnLead(c, h, acks, s.term, p, s.snapIndex, u);
      CommittedLike(c, h, s.term, p, s.snapIndex, l, s.snapIndex);
      CommittedMoreHere(c, h, s.term, u, l, s.commitIndex);
    }
  }

  lemma CommittedMoreHere(c: State, h: Past, bound: int, bound': int, log: seq<Entry>, n: int)
    requires CommittedTo(c, h, bound, log, n) && bound <= bound'
    ensures CommittedTo(c, h, bound', log, n)
  {
    if n > 0 {
      var k: nat :| CommittedBy(c, h, bound, log, n, k);
      assert CommittedBy(c, h, bound', log, n, k);
    }
  }

  /** A message that leaves the log as it is. */
  lemma ShortCommitted(c: State, h: Past, bound: int, f: seq<Entry>, l: seq<Entry>, end: nat, n: int, leaderCommit: int)
    requires end < |f| && 0 <= leaderCommit <= end <= |l| && Agree(f, l, end)
    requires CommittedTo(c, h, bound, f, n) && CommittedTo(c, h, bound, l, leaderCommit)
    ensures CommittedTo(c, h, bound, f, CommitAfter(n, leaderCommit, |f|))
  {
    CommittedLike(c, h, bound, l, leaderCommit, f, leaderCommit);
  }

  /** What holds of a node after it took a message from the leader of the term. */
  lemma TakenFacts(c: State, h: Past, acks: set<Ack>, s: Node, a: AppendEntriesArgs)
    requires PastInv(h) && LeadsCover(c, h, acks) && RecordsGood(c, h, acks)
    requires NodePath(h, s) && Sound(s) && NodeCommitted(c, h, s) && Contiguous(a) && ArgsPath(h, a)
    requires CleanAppend(s, a) && Takes(s, a)
    ensures var t, l := HandleAppend(s, a).node, h.leads[a.term].log;
            && NodePath(h, t) && Whole(h, t) == Laid(Whole(h, s), l, EndIndex(a))
            && TookOver(h.paths, s, Whole(h, s), t, l, EndIndex(a))
            && t.term == a.term >= s.term && Sound(t)
            && t.commitIndex == CommitAfter(s.commitIndex, a.leaderCommit, |Whole(h, t)|)
            && CommittedTo(c, h, a.term, l, s.commitIndex)
            && CommittedTo(c, h, a.term, Path(h, t.snapTerm, t.snapIndex), t.snapIndex)
  {
    AnchoredAt(c, h, acks, s);
    AppendPath(h, s, a);
    AppendSteady(s, a);
    TakenCommitIndex(s, a);
    OwnOnLead(c, h, acks, s, a.term);
    CommittedMoreHere(c, h, s.term, a.term, Path(h, s.snapTerm, s.snapIndex), s.snapIndex);
  }

  lemma TakenCommitted(c: State, h: Past, s: Node, a: AppendEntriesArgs, t: Node, f: seq<Entry>, l: seq<Entry>)
    requires f == Whole(h, s) && 0 <= EndIndex(a) <= |l| && Whole(h, t) == Laid(f, l, EndIndex(a))
    requires TookOver(h.paths, s, f, t, l, EndIndex(a)) && t.term == a.term >= s.term
    requires t.commitIndex == CommitAfter(s.commitIndex, a.leaderCommit, |Whole(h, t)|) && 0 <= s.commitIndex <= |f|
    requires CommittedTo(c, h, a.term, l, s.commitIndex) && NodeCommitted(c, h, s)
    requires CommittedTo(c, h, a.term, Path(h, t.snapTerm, t.snapIndex), t.snapIndex)
    requires 0 <= a.leaderCommit <= EndIndex(a) && CommittedTo(c, h, a.term, l, a.leaderCommit)
    ensures NodeCommitted(c, h, t)
  {
    if EndIndex(a) >= |f| {
      LongCommitted(c, h, a.term, l, EndIndex(a), s.commitIndex, a.leaderCommit);
    } else if Seam(s, f) {
      CommittedMoreHere(c, h, s.term, a.term, f, s.commitIndex);
      ShortCommitted(c, h, a.term, f, l, EndIndex(a), s.commitIndex, a.leaderCommit);
    }
  }

  lemma OverlaidCommitted(c: State, h: Past, acks: set<Ack>, s: Node, a: AppendEntriesArgs)
    requires PastInv(h) && LeadsCover(c, h, acks) && RecordsGood(c, h, acks)
    requires NodePath(h, s) && Sound(s) && NodeCommitted(c, h, s) && Contiguous(a) && ArgsPath(h, a)
    requires CleanAppend(s, a) && Takes(s, a)
    requires 0 <= a.leaderCommit <= EndIndex(a) && CommittedTo(c, h, a.term, h.leads[a.term].log, a.leaderCommit)
    ensures NodeCommitted(c, h, HandleAppend(s, a).node)
  {
    TakenFacts(c, h, acks, s, a);
    TakenCommitted(c, h, s, a, HandleAppend(s, a).node, Whole(h, s), h.leads[a.term].log);
  }

  lemma AnsweredCommitted(c: State, h: Past, acks: set<Ack>, s: Node, a: AppendEntriesArgs)
    requires PastInv(h) && LeadsCover(c, h, acks) && RecordsGood(c, h, acks)
    requires NodePath(h, s) && Sound(s) && NodeCommitted(c, h, s) && Contiguous(a) && ArgsPath(h, a)
    requires CleanAppend(s, a)
    requires 0 <= a.leaderCommit <= EndIndex(a) && CommittedTo(c, h, a.term, h.leads[a.term].log, a.leaderCommit)
    ensures NodeCommitted(c, h, HandleAppend(s, a).node)
  {
    if Takes(s, a) {
      OverlaidCommitted(c, h, acks, s, a);
    } else {
      AppendSteady(s, a);
      NotTaken(s, a);
      SameLogPath(h, s, HandleAppend(s, a).node);
      SelfExtends(h);
      SameCommitted(c, h, c, h, s, HandleAppend(s, a).node);
    }
  }

  lemma SelfExtends(h: Past)
    ensures PastExtends(h, h)
  {}

  /** A snapshot that goes into a longer log: the log fits it wherever it was committed further. */
  lemma SnapFits(c: State, h: Past, acks: set<Ack>, s: Node, f: seq<Entry>, t: Node, p: seq<Entry>, u: int)
    requires PastInv(h) && LeadsCover(c, h, acks) && RecordsGood(c, h, acks)
    requires f == Whole(h, s) && 0 < |p| < |f| && NodeCommitted(c, h, s) && s.snapIndex < |p|
    requires CommittedTo(c, h, u, p, |p|)
    requires t.snapIndex == |p| && p[|p| - 1].term == t.snapTerm && s.commitIndex > |p|
    ensures Seam(t, f)
  {
    CommittedAgree(c, h, acks, s.term, f, s.commitIndex, u, p, |p|, |p| - 1);
  }

  lemma InstalledCommitted(c: State, h: Past, acks: set<Ack>, s: Node, a: InstallSnapshotArgs)
    requires PastInv(h) && LeadsCover(c, h, acks) && RecordsGood(c, h, acks)
    requires NodePath(h, s) && Sound(s) && SaneSnapshot(a) && TakesSnap(s, a) && IsPath(h, a.lastTerm, a.lastIndex)
    requires NodeCommitted(c, h, s) && CommittedTo(c, h, a.term, Path(h, a.lastTerm, a.lastIndex), a.lastIndex)
    ensures NodeCommitted(c, h, HandleInstall(s, a).node)
  {
    var f, p, t := Whole(h, s), Path(h, a.lastTerm, a.lastIndex), HandleInstall(s, a).node;
    assert GoodPath(h, a.lastTerm, a.lastIndex);
    SnapTaken(h, s, a);
    SnapFollowSame(s, a);
    assert t.commitIndex == Max(s.commitIndex, |p|) && t.term == a.term;
    if |p| >= |f| {
      assert p[..|p|] == p;
    } else {
      if s.commitIndex > |p| { SnapFits(c, h, acks, s, f, t, p, a.term); }
      InstalledSeam(c, h, s, f, t, p, a.term);
    }
  }

  lemma InstalledSeam(c: State, h: Past, s: Node, f: seq<Entry>, t: Node, p: seq<Entry>, u: int)
    requires f == Whole(h, s) == Whole(h, t) && 0 < |p| < |f| && NodeCommitted(c, h, s) && s.snapIndex < |p|
    requires CommittedTo(c, h, u, p, |p|) && t.snapIndex == |p| && Path(h, t.snapTerm, |p|) == p
    requires s.term <= u == t.term
    requires t.commitIndex == Max(s.commitIndex, |p|) && (Seam(t, f) ==> Agree(f, p, |p|))
    requires s.commitIndex > |p| ==> Seam(t, f)
    ensures NodeCommitted(c, h, t)
  {
    if Seam(t, f) {
      if s.commitIndex > |p| { CommittedMoreHere(c, h, s.term, u, f, s.commitIndex); }
      else { CommittedLike(c, h, u, p, |p|, f, |p|); }
    }
  }

  // ------------------------------------------------------------- leaders commit

  /** The commit branch runs only with a new record, which it raises the commit index to. */
  lemma CommitChosen(c: State, b: nat, s: nat)
    requires Structured(c) && Enabled(c, HearAppend(b, s))
    requires var i := c.beats[b].leader; StepHearAppend(c, b, s).nodes[i].commitIndex != c.nodes[i].commitIndex
                                         || StepHearAppend(c, b, s).commits != c.commits
    ensures var d := StepHearAppend(c, b, s); var i := c.beats[b].leader;
            && |d.commits| == |c.commits| + 1 && d.commits[|c.commits|].term == c.nodes[i].term == d.nodes[i].term
            && c.nodes[i].status == Leader
            && d.nodes[i].commitIndex == Max(c.nodes[i].commitIndex, d.commits[|c.commits|].index)
  {
    var beat := c.beats[b];
    assert GoodBeat(c.nodes, beat) && GoodCall(beat, beat.calls[s]) && GoodNode(c.nodes, beat.leader);
  }

  lemma RecordCommitted(d: State, h: Past, acks: set<Ack>, k: nat, log: seq<Entry>)
    requires k < |d.commits| && RecordGood(h, acks, |d.nodes|, d.commits[k], k) && log == h.leads[d.commits[k].term].log
    ensures CommittedTo(d, h, d.commits[k].term, log, d.commits[k].index)
  {
    assert CommittedBy(d, h, d.commits[k].term, log, d.commits[k].index, k);
  }

  lemma RaisedCommitted(c: State, h: Past, d: State, more: set<Ack>, s: Node, t: Node, k: nat)
    requires PastInv(h) && NodeCommitted(c, h, s) && NodePath(h, s) && NodeAnchored(h, s) && s.status == Leader
    requires CommitsStay(c.commits, d.commits) && k < |d.commits| && RecordGood(h, more, |d.nodes|, d.commits[k], k)
    requires d.commits[k].term == s.term == t.term && t.snapIndex == s.snapIndex && t.snapTerm == s.snapTerm
    requires Whole(h, t) == Whole(h, s) && t.commitIndex == Max(s.commitIndex, d.commits[k].index)
    ensures NodeCommitted(d, h, t)
  {
    SelfExtends(h);
    RecordCommitted(d, h, more, k, Whole(h, s));
    CommittedMore(c, h, d, h, s.term, s.term, Whole(h, s), s.commitIndex);
    CommittedMore(c, h, d, h, s.term, s.term, Path(h, s.snapTerm, s.snapIndex), s.snapIndex);
  }

  // ---------------------------------------------------------- what a step keeps

  /** Some facts about a step that are needed for every node and message. */
  ghost predicate StepFacts(c: State, h: Past, d: State, h': Past) {
    PastInv(h) && PastInv(h') && PastExtends(h, h') && CommitsStay(c.commits, d.commits)
  }

  lemma HearerCommitted(c: State, h: Past, acks: set<Ack>, b: nat, s: nat, more: set<Ack>)
    requires RaftInv(c, h, acks) && Enabled(c, HearAppend(b, s))
    requires CommitsStay(c.commits, StepHearAppend(c, b, s).commits)
    requires RecordsGood(StepHearAppend(c, b, s), h, more)
    ensures var i := c.beats[b].leader; NodeCommitted(StepHearAppend(c, b, s), h, StepHearAppend(c, b, s).nodes[i])
  {
    var d, i := StepHearAppend(c, b, s), c.beats[b].leader;
    assert GoodNode(c.nodes, i) && NodePath(h, c.nodes[i]) && NodeCommitted(c, h, c.nodes[i]);
    QuietPath(c, h, HearAppend(b, s), i);
    LogUntouched(c, HearAppend(b, s), i);
    ActorGrows(c, HearAppend(b, s));
    SelfExtends(h);
    if d.nodes[i].commitIndex != c.nodes[i].commitIndex {
      CommitChosen(c, b, s);
      AnchoredAt(c, h, acks, c.nodes[i]);
      assert RecordGood(h, more, |d.nodes|, d.commits[|c.commits|], |c.commits|);
      RaisedCommitted(c, h, d, more, c.nodes[i], d.nodes[i], |c.commits|);
    } else {
      SameCommitted(c, h, d, h, c.nodes[i], d.nodes[i]);
    }
  }

  lemma AnswererCommitted(c: State, h: Past, acks: set<Ack>, b: nat, k: nat)
    requires RaftInv(c, h, acks) && Enabled(c, AnswerAppend(b, k)) && Clean(c, AnswerAppend(b, k))
    ensures NodeCommitted(StepAnswerAppend(c, b, k), h, StepAnswerAppend(c, b, k).nodes[k])
  {
    assert GoodBeat(c.nodes, c.beats[b]) && GoodCall(c.beats[b], c.beats[b].calls[k]) && GoodNode(c.nodes, k);
    assert BeatPath(h, c.beats[b]) && NodePath(h, c.nodes[k]) && NodeCommitted(c, h, c.nodes[k]);
    assert BeatCommitted(c, h, c.beats[b]) && CallCommitted(c, h, c.beats[b].term, c.beats[b].calls[k]);
    AnsweredCommitted(c, h, acks, c.nodes[k], c.beats[b].calls[k].args);
    SameRecords(c, h, StepAnswerAppend(c, b, k), StepAnswerAppend(c, b, k).nodes[k]);
  }

  /** Whether a node's log is committed depends on the records and the history only. */
  lemma SameRecords(c: State, h: Past, d: State, s: Node)
    requires NodeCommitted(c, h, s) && d.commits == c.commits
    ensures NodeCommitted(d, h, s)
  {
    SameRecordsTo(c, h, d, s.term, Path(h, s.snapTerm, s.snapIndex), s.snapIndex);
    if Seam(s, Whole(h, s)) { SameRecordsTo(c, h, d, s.term, Whole(h, s), s.commitIndex); }
  }

  lemma SameRecordsTo(c: State, h: Past, d: State, bound: int, log: seq<Entry>, n: int)
    requires CommittedTo(c, h, bound, log, n) && d.commits == c.commits
    ensures CommittedTo(d, h, bound, log, n)
  {
    SelfExtends(h);
    CommittedMore(c, h, d, h, bound, bound, log, n);
  }

  lemma InstallerCommitted(c: State, h: Past, acks: set<Ack>, k: nat)
    requires RaftInv(c, h, acks) && Enabled(c, AnswerSnap(k))
    ensures var i := c.snaps[k].server;
            i < |c.nodes| && NodeCommitted(StepAnswerSnap(c, k), h, StepAnswerSnap(c, k).nodes[i])
  {
    var i := c.snaps[k].server;
    var s, a, t := c.nodes[i], c.snaps[k].args, StepAnswerSnap(c, k).nodes[i];
    assert GoodSnap(c.nodes, c.snaps[k]) && GoodNode(c.nodes, i);
    assert NodePath(h, s) && NodeCommitted(c, h, s) && SnapPath(h, c.snaps[k]) && SnapCommitted(c, h, c.snaps[k]);
    if TakesSnap(s, a) {
      InstalledCommitted(c, h, acks, s, a);
    } else {
      InstallSteady(s, a);
      SnapNotTaken(s, a);
      SameLogPath(h, s, t);
      SelfExtends(h);
      SameCommitted(c, h, c, h, s, t);
    }
    SameRecords(c, h, StepAnswerSnap(c, k), t);
  }

  lemma SubmitterCommitted(c: State, h: Past, acks: set<Ack>, i: nat, command: Command, h': Past)
    requires RaftInv(c, h, acks) && Enabled(c, Submit(i, command)) && h' == Advance(c, h, Submit(i, command))
    requires PastExtends(h, h') && PastInv(h')
    ensures NodeCommitted(StepSubmit(c, i, command), h', StepSubmit(c, i, command).nodes[i])
  {
    var s, d := c.nodes[i], StepSubmit(c, i, command);
    assert GoodNode(c.nodes, i) && NodePath(h, s) && NodeCommitted(c, h, s);
    AnchoredAt(c, h, acks, s);
    SubmitterPath(c, h, i, command);
    LeaderAppends(c, h, i, command);
    GrownCommitted(c, h, d, h', s, d.nodes[i]);
  }

  lemma CompactorCommitted(c: State, h: Past, acks: set<Ack>, a: Action)
    requires RaftInv(c, h, acks) && Enabled(c, a) && a.TakeSnapshot?
    ensures NodeCommitted(Step(c, a), h, Step(c, a).nodes[a.i])
  {
    Compacted(c, a);
    assert NodePath(h, c.nodes[a.i]) && NodeCommitted(c, h, c.nodes[a.i]);
    CompactedCommitted(c, h, c.nodes[a.i], a.index, a.data);
    SameRecords(c, h, Step(c, a), Step(c, a).nodes[a.i]);
  }

  predicate LeavesCommitted(a: Action) {
    !WritesLog(a) && !a.HearAppend?
  }

  /** The other locked sections leave the log and the commit index alone. */
  lemma QuietActorCommitted(c: State, h: Past, acks: set<Ack>, a: Action, h': Past)
    requires RaftInv(c, h, acks) && Enabled(c, a) && LeavesCommitted(a) && h' == Advance(c, h, a)
    requires StepFacts(c, h, Step(c, a), h') && Clean(c, a)
    ensures var i := Actor(c, a); i < |c.nodes| && NodeCommitted(Step(c, a), h', Step(c, a).nodes[i])
  {
    var i := Actor(c, a);
    ActorOnly(c, a);
    InvAnchored(c, h, acks);
    ActorPath(c, h, a, i);
    ActorGrows(c, a);
    LogUntouched(c, a, i);
    SameCommitIndex(c, a);
    assert NodePath(h, c.nodes[i]) && NodeCommitted(c, h, c.nodes[i]);
    SameCommitted(c, h, Step(c, a), h', c.nodes[i], Step(c, a).nodes[i]);
  }

  lemma SameCommitIndex(c: State, a: Action)
    requires Structured(c) && Enabled(c, a) && LeavesCommitted(a)
    ensures var i := Actor(c, a); i < |c.nodes| && Step(c, a).nodes[i].commitIndex == c.nodes[i].commitIndex
  {
    ActorOnly(c, a);
  }

  lemma ActorCommitted(c: State, h: Past, acks: set<Ack>, a: Action, h': Past, more: set<Ack>)
    requires RaftInv(c, h, acks) && Enabled(c, a) && Clean(c, a) && h' == Advance(c, h, a)
    requires StepFacts(c, h, Step(c, a), h') && RecordsGood(Step(c, a), h', more)
    ensures var i := Actor(c, a); i < |c.nodes| && NodeCommitted(Step(c, a), h', Step(c, a).nodes[i])
  {
    ActorOnly(c, a);
    if LeavesCommitted(a) { QuietActorCommitted(c, h, acks, a, h'); }
    else if a.HearAppend? { HearerCommitted(c, h, acks, a.b, a.s, more); }
    else if a.AnswerAppend? { AnswererCommitted(c, h, acks, a.b, a.s); }
    else if a.AnswerSnap? { InstallerCommitted(c, h, acks, a.k); }
    else if a.Submit? { SubmitterCommitted(c, h, acks, a.i, a.command, h'); }
    else { CompactorCommitted(c, h, acks, a); }
  }

  lemma OtherCommitted(c: State, h: Past, a: Action, d: State, h': Past, j: nat)
    requires HistoryOf(c, h) && Commits(c, h) && Enabled(c, a) && h' == Advance(c, h, a) && StepFacts(c, h, d, h')
    requires j < |c.nodes| && j != Actor(c, a)
    ensures NodeCommitted(d, h', c.nodes[j])
  {
    assert NodePath(h, c.nodes[j]) && NodeCommitted(c, h, c.nodes[j]);
    OtherPath(c, h, a, j);
    SameCommitted(c, h, d, h', c.nodes[j], c.nodes[j]);
  }

  // ----------------------------------------------------------------- messages

  lemma CallCommittedMore(c: State, h: Past, d: State, h': Past, term: int, k: AppendCall, k': AppendCall)
    requires CallCommitted(c, h, term, k) && StepFacts(c, h, d, h')
    requires HasArgs(k') ==> HasArgs(k) && k'.args == k.args
    ensures CallCommitted(d, h', term, k')
  {
    if HasArgs(k') {
      var n, l := k.args.leaderCommit, h.leads[term].log;
      assert LeadExtends(h.leads[term], h'.leads[term], term);
      CommittedMore(c, h, d, h', term, term, l, n);
      CommittedLike(d, h', term, l, n, h'.leads[term].log, n);
    }
  }

  lemma NewBeatCommitted(c: State, h: Past, s: Node)
    requires Sound(s) && CanBeat(s) && s.status == Leader && NodePath(h, s) && NodeCommitted(c, h, s)
    requires NodeAnchored(h, s)
    ensures BeatCommitted(c, h, NewBeat(s))
  {
    LastIndexSound(s);
    forall k | 0 <= k < |NewBeat(s).calls| ensures CallCommitted(c, h, s.term, NewBeat(s).calls[k]) {
      assert NewBeat(s).calls[k] == CallFor(DispatchTo(s, k));
    }
  }

  lemma BeatCommittedMore(c: State, h: Past, d: State, h': Past, b: Beat, b': Beat)
    requires BeatCommitted(c, h, b) && SameRound(b, b') && StepFacts(c, h, d, h')
    ensures BeatCommitted(d, h', b')
  {
    forall s | 0 <= s < |b'.calls| ensures CallCommitted(d, h', b'.term, b'.calls[s]) {
      CallCommittedMore(c, h, d, h', b.term, b.calls[s], b'.calls[s]);
    }
  }

  lemma AddedBeatCommitted(c: State, h: Past, d: State, h': Past, i: nat)
    requires Structured(c) && Enabled(c, DoHeartBeat(i)) && StepFacts(c, h, d, h')
    requires NodePath(h, c.nodes[i]) && NodeCommitted(c, h, c.nodes[i]) && NodeAnchored(h, c.nodes[i])
    ensures GoodNode(c.nodes, i) && BeatCommitted(d, h', NewBeat(c.nodes[i]))
  {
    assert GoodNode(c.nodes, i);
    NewBeatCommitted(c, h, c.nodes[i]);
    BeatCommittedMore(c, h, d, h', NewBeat(c.nodes[i]), NewBeat(c.nodes[i]));
  }

  lemma BeatCommittedKept(c: State, h: Past, a: Action, h': Past, b: nat)
    requires Structured(c) && PathInv(c, h) && Commits(c, h) && Anchored(c, h) && Enabled(c, a)
    requires StepFacts(c, h, Step(c, a), h') && b < |Step(c, a).beats|
    ensures BeatCommitted(Step(c, a), h', Step(c, a).beats[b])
  {
    if b < |c.beats| {
      assert BeatCommitted(c, h, c.beats[b]);
      RoundsLast(c, a, b);
      BeatCommittedMore(c, h, Step(c, a), h', c.beats[b], Step(c, a).beats[b]);
    } else {
      assert NodePath(h, c.nodes[a.i]) && NodeCommitted(c, h, c.nodes[a.i]) && NodeAnchored(h, c.nodes[a.i]);
      AddedBeatCommitted(c, h, Step(c, a), h', a.i);
    }
  }

  lemma SnapCommittedMore(c: State, h: Past, d: State, h': Past, k: SnapCall, k': SnapCall)
    requires SnapCommitted(c, h, k) && SnapPath(h, k) && StepFacts(c, h, d, h')
    requires k'.SnapPending? || k'.SnapReplied? ==> (k.SnapPending? || k.SnapReplied?) && k'.args == k.args
    ensures SnapCommitted(d, h', k')
  {
    if k'.SnapPending? || k'.SnapReplied? {
      var a := k.args;
      PathExtends(h, h', a.lastTerm, a.lastIndex);
      CommittedMore(c, h, d, h', a.term, a.term, Path(h, a.lastTerm, a.lastIndex), a.lastIndex);
    }
  }

  /** A snapshot covers only what its sender has committed. */
  lemma BuiltSnapCommitted(c: State, h: Past, k: nat)
    requires Structured(c) && PathInv(c, h) && Commits(c, h) && Enabled(c, BuildSnap(k))
    ensures SnapCommitted(StepBuildSnap(c, k), h, StepBuildSnap(c, k).snaps[k])
  {
    var i := c.snaps[k].leader;
    assert NodeCommitted(c, h, c.nodes[i]);
    SameRecords(c, h, StepBuildSnap(c, k), c.nodes[i]);
  }

  lemma OldSnap(c: State, a: Action, k: nat)
    requires Structured(c) && Enabled(c, a) && k < |Step(c, a).snaps| && !(a.BuildSnap? && a.k == k)
    ensures var s' := Step(c, a).snaps[k];
            s'.SnapPending? || s'.SnapReplied? ==>
              k < |c.snaps| && (c.snaps[k].SnapPending? || c.snaps[k].SnapReplied?) && s'.args == c.snaps[k].args
  {
    if a.DoHeartBeat? { assert GoodNode(c.nodes, a.i); }
  }

  lemma SnapCommittedKept(c: State, h: Past, a: Action, h': Past, k: nat)
    requires Structured(c) && PathInv(c, h) && Commits(c, h) && Enabled(c, a) && k < |Step(c, a).snaps|
    requires StepFacts(c, h, Step(c, a), h') && (a.BuildSnap? ==> h' == h)
    ensures SnapCommitted(Step(c, a), h', Step(c, a).snaps[k])
  {
    if a.BuildSnap? && a.k == k {
      BuiltSnapCommitted(c, h, k);
    } else {
      OldSnap(c, a, k);
      if k < |c.snaps| {
        assert SnapCommitted(c, h, c.snaps[k]) && SnapPath(h, c.snaps[k]);
        SnapCommittedMore(c, h, Step(c, a), h', c.snaps[k], Step(c, a).snaps[k]);
      }
    }
  }

  lemma CommitsKept(c: State, h: Past, acks: set<Ack>, a: Action, d: State, h': Past, more: set<Ack>)
    requires RaftInv(c, h, acks) && Enabled(c, a) && Clean(c, a) && d == Step(c, a) && h' == Advance(c, h, a)
    requires StepFacts(c, h, d, h') && RecordsGood(d, h', more)
    ensures Commits(d, h')
  {
    InvAnchored(c, h, acks);
    ActorOnly(c, a);
    ActorCommitted(c, h, acks, a, h', more);
    forall i | 0 <= i < |d.nodes| ensures NodeCommitted(d, h', d.nodes[i]) {
      if i != Actor(c, a) { OtherCommitted(c, h, a, d, h', i); }
    }
    forall b | 0 <= b < |d.beats| ensures BeatCommitted(d, h', d.beats[b]) { BeatCommittedKept(c, h, a, h', b); }
    forall k | 0 <= k < |d.snaps| ensures SnapCommitted(d, h', d.snaps[k]) { SnapCommittedKept(c, h, a, h', k); }
  }

  lemma RaftInvKept(c: State, h: Past, acks: set<Ack>, a: Action)
    requires RaftInv(c, h, acks) && QuorumInv(c) && Enabled(c, a) && Clean(c, a)
    ensures RaftInv(Step(c, a), Advance(c, h, a), AdvanceAcks(c, acks, a)) && QuorumInv(Step(c, a))
    ensures PastExtends(h, Advance(c, h, a)) && CommitsStay(c.commits, Step(c, a).commits)
    ensures |Step(c, a).nodes| == |c.nodes|
  {
    BallotsKept(c, h, acks, a);
    QuorumInvKept(c, a);
    CommitsKept(c, h, acks, a, Step(c, a), Advance(c, h, a), AdvanceAcks(c, acks, a));
  }

  // -------------------------------------------------------------- over all runs

  lemma CleanIsRun(n: nat, run: seq<State>)
    requires IsCleanRun(n, run)
    ensures IsRun(n, run)
  {
    forall t | 0 <= t < |run| - 1 ensures IsStep(run[t], run[t + 1]) {
      assert CleanStep(run[t], run[t + 1]);
    }
  }

  lemma LastClean(n: nat, run: seq<State>, t: nat) returns (a: Action)
    requires IsCleanRun(n, run) && 0 < t < |run|
    ensures Structured(run[t - 1]) && Enabled(run[t - 1], a) && Clean(run[t - 1], a) && run[t] == Step(run[t - 1], a)
  {
    assert CleanStep(run[t - 1], run[t - 1 + 1]);
    a :| Enabled(run[t - 1], a) && Clean(run[t - 1], a) && run[t] == Step(run[t - 1], a);
  }

  lemma StartRaft(n: nat)
    requires n >= 1
    ensures RaftInv(Init(n), Past(map[], map[]), {}) && QuorumInv(Init(n))
  {
    InitStructured(n);
  }

  lemma ExtendsOn(g: Past, h: Past, h': Past)
    requires PastExtends(g, h) && PastExtends(h, h')
    ensures PastExtends(g, h')
  {
    forall term | term in g.leads ensures term in h'.leads && LeadExtends(g.leads[term], h'.leads[term], term) {
      assert LeadExtends(g.leads[term], h.leads[term], term) && LeadExtends(h.leads[term], h'.leads[term], term);
    }
    forall key | key in g.paths ensures key in h'.paths && h'.paths[key] == g.paths[key] {
      assert h.paths[key] == g.paths[key];
    }
  }

  /** Whatever was recorded in one state is recorded in the other. */
  ghost predicate Later(c: State, g: Past, d: State, h: Past) {
    PastExtends(g, h) && CommitsStay(c.commits, d.commits)
  }

  lemma LaterOn(c: State, g: Past, d: State, h: Past, d': State, h': Past)
    requires Later(c, g, d, h) && Later(d, h, d', h')
    ensures Later(c, g, d', h')
  {
    ExtendsOn(g, h, h');
    forall k | 0 <= k < |c.commits| ensures d'.commits[k] == c.commits[k] {
      assert d.commits[k] == c.commits[k];
    }
  }

  lemma NextPast(n: nat, run: seq<State>, t: nat, g: Past, acks: set<Ack>) returns (h: Past, more: set<Ack>)
    requires IsCleanRun(n, run) && 0 < t < |run| && RaftInv(run[t - 1], g, acks) && QuorumInv(run[t - 1])
    ensures RaftInv(run[t], h, more) && QuorumInv(run[t]) && |run[t].nodes| == |run[t - 1].nodes|
    ensures Later(run[t - 1], g, run[t], h)
  {
    var a := LastClean(n, run, t);
    RaftInvKept(run[t - 1], g, acks, a);
    h, more := Advance(run[t - 1], g, a), AdvanceAcks(run[t - 1], acks, a);
  }

  lemma {:induction false} RunPast(n: nat, run: seq<State>, t: nat) returns (h: Past, acks: set<Ack>)
    requires IsCleanRun(n, run) && t < |run|
    ensures RaftInv(run[t], h, acks) && QuorumInv(run[t]) && |run[t].nodes| == n
    decreases t
  {
    if t == 0 {
      StartRaft(n);
      h, acks := Past(map[], map[]), {};
    } else {
      h, acks := RunPast(n, run, t - 1);
      h, acks := NextPast(n, run, t, h, acks);
    }
  }

  /** The history at a later time continues the one at an earlier time. */
  lemma {:induction false} LaterPast(n: nat, run: seq<State>, t: nat, g: Past, acks: set<Ack>, u: nat)
    returns (h: Past, more: set<Ack>)
    requires IsCleanRun(n, run) && t <= u < |run| && RaftInv(run[t], g, acks) && QuorumInv(run[t])
    ensures RaftInv(run[u], h, more) && QuorumInv(run[u]) && |run[u].nodes| == |run[t].nodes|
    ensures Later(run[t], g, run[u], h)
    decreases u
  {
    if t == u {
      h, more := g, acks;
      SelfExtends(g);
    } else {
      var f, some := LaterPast(n, run, t, g, acks, u - 1);
      h, more := NextPast(n, run, u, f, some);
      LaterOn(run[t], g, run[u - 1], f, run[u], h);
    }
  }

  // ----------------------------------------------------------------- theorems

  /** The entry of a node's log at an index that its snapshot does not cover. */
  function EntryAt(s: Node, index: int): Entry
    requires s.snapIndex < index <= Top(s)
  {
    s.logs[index - s.snapIndex - 1]
  }

  lemma EntryOnWhole(h: Past, s: Node, index: int)
    requires NodePath(h, s) && s.snapIndex < index <= Top(s)
    ensures index <= |Whole(h, s)| && EntryAt(s, index) == Whole(h, s)[index - 1]
  {
    assert s.logs[index - s.snapIndex - 1] == Whole(h, s)[s.snapIndex + (index - s.snapIndex - 1)];
  }

  lemma NodeFacts(c: State, h: Past, acks: set<Ack>, i: nat)
    requires RaftInv(c, h, acks) && i < |c.nodes|
    ensures NodePath(h, c.nodes[i]) && Sound(c.nodes[i]) && NodeCommitted(c, h, c.nodes[i])
  {
    assert GoodNode(c.nodes, i) && NodePath(h, c.nodes[i]) && NodeCommitted(c, h, c.nodes[i]);
  }

  lemma SameEntries(g: Past, h: Past, s: Node, s': Node, index: int, k: int)
    requires PastExtends(g, h) && NodePath(g, s) && NodePath(h, s')
    requires 0 <= Max(s.snapIndex, s'.snapIndex) < k <= index <= Min(Top(s), Top(s'))
    requires EntryAt(s, index).term == EntryAt(s', index).term
    ensures EntryAt(s, k) == EntryAt(s', k)
  {
    var x, y := Whole(g, s), Whole(h, s');
    GoodLogExtends(g, h, x);
    EntryOnWhole(g, s, index);
    EntryOnWhole(h, s', index);
    EntryOnWhole(g, s, k);
    EntryOnWhole(h, s', k);
    SameUpTo(h.paths, x, y, index);
  }

  /** Log Matching: two nodes that have entries of one term at an index have the same entries up to it,
      also at different times of a run. */
  lemma LogMatching(n: nat, run: seq<State>, t: nat, u: nat, i: nat, j: nat, index: int, k: int)
    requires IsCleanRun(n, run) && t <= u < |run| && i < |run[t].nodes| && j < |run[u].nodes|
    requires var s, s' := run[t].nodes[i], run[u].nodes[j];
             && Max(s.snapIndex, s'.snapIndex) < k <= index <= Min(Top(s), Top(s'))
             && EntryAt(s, index).term == EntryAt(s', index).term
    ensures EntryAt(run[t].nodes[i], k) == EntryAt(run[u].nodes[j], k)
  {
    var g, acks := RunPast(n, run, t);
    var h, more := LaterPast(n, run, t, g, acks, u);
    NodeFacts(run[t], g, acks, i);
    NodeFacts(run[u], h, more, j);
    SameEntries(g, h, run[t].nodes[i], run[u].nodes[j], index, k);
  }

  /** The index is committed on the node, and its snapshot does not cover it. */
  predicate CommittedAt(s: Node, index: int) {
    s.snapIndex < index <= s.commitIndex <= Top(s)
  }

  /** Such an entry is part of a log that is committed in every later state. */
  lemma EntryCommitted(c: State, g: Past, d: State, h: Past, s: Node, index: int)
    requires NodePath(g, s) && NodeCommitted(c, g, s) && Later(c, g, d, h) && CommittedAt(s, index)
    ensures CommittedTo(d, h, s.term, Whole(g, s), s.commitIndex) && 1 <= index <= |Whole(g, s)|
    ensures EntryAt(s, index) == Whole(g, s)[index - 1]
  {
    EntryOnWhole(g, s, index);
    CommittedMore(c, g, d, h, s.term, s.term, Whole(g, s), s.commitIndex);
  }

  lemma SafeBetween(c: State, g: Past, d: State, h: Past, more: set<Ack>, s: Node, s': Node, index: int)
    requires PastInv(h) && LeadsCover(d, h, more) && RecordsGood(d, h, more) && Later(c, g, d, h)
    requires NodePath(g, s) && NodeCommitted(c, g, s) && NodePath(h, s') && NodeCommitted(d, h, s')
    requires CommittedAt(s, index) && CommittedAt(s', index)
    ensures EntryAt(s, index) == EntryAt(s', index)
  {
    SelfExtends(h);
    EntryCommitted(c, g, d, h, s, index);
    EntryCommitted(d, h, d, h, s', index);
    CommittedAgree(d, h, more, s.term, Whole(g, s), s.commitIndex, s'.term, Whole(h, s'), s'.commitIndex, index - 1);
  }

  /** State Machine Safety: no two nodes ever have different entries committed at one index. */
  lemma StateMachineSafe(n: nat, run: seq<State>, t: nat, u: nat, i: nat, j: nat, index: int)
    requires IsCleanRun(n, run) && t <= u < |run| && i < |run[t].nodes| && j < |run[u].nodes|
    requires CommittedAt(run[t].nodes[i], index) && CommittedAt(run[u].nodes[j], index)
    ensures EntryAt(run[t].nodes[i], index) == EntryAt(run[u].nodes[j], index)
  {
    var g, acks := RunPast(n, run, t);
    var h, more := LaterPast(n, run, t, g, acks, u);
    NodeFacts(run[t], g, acks, i);
    NodeFacts(run[u], h, more, j);
    SafeBetween(run[t], g, run[u], h, more, run[t].nodes[i], run[u].nodes[j], index);
  }

  /** Leader Completeness: a committed entry is in the log of every leader of a higher term, or covered
      by its snapshot, whether that term began before or after the commit. */
  lemma LeaderComplete(n: nat, run: seq<State>, t: nat, u: nat, k: nat, i: nat)
    requires IsCleanRun(n, run) && t < |run| && u < |run| && k < |run[t].commits| && i < |run[u].nodes|
    requires run[u].nodes[i].status == Leader && run[u].nodes[i].term > run[t].commits[k].term
    ensures Holds(run[u].nodes[i], run[t].commits[k].index, run[t].commits[k].term)
  {
    if t <= u {
      var g, acks := RunPast(n, run, t);
      var h, more := LaterPast(n, run, t, g, acks, u);
      NodeFacts(run[u], h, more, i);
      assert run[u].commits[k] == run[t].commits[k];
      SelfExtends(h);
      ChosenHeld(h, run[u], h, more, k, run[u].nodes[i]);
    } else {
      var g, acks := RunPast(n, run, u);
      var h, more := LaterPast(n, run, u, g, acks, t);
      NodeFacts(run[u], g, acks, i);
      ChosenHeld(g, run[t], h, more, k, run[u].nodes[i]);
    }
  }

  lemma ChosenHeld(g: Past, d: State, h: Past, more: set<Ack>, k: nat, s: Node)
    requires PastInv(h) && LeadsCover(d, h, more) && RecordsGood(d, h, more) && k < |d.commits|
    requires NodePath(g, s) && PastExtends(g, h) && Sound(s) && s.status == Leader && s.term > d.commits[k].term
    ensures Holds(s, d.commits[k].index, d.commits[k].term)
  {
    var m := d.commits[k];
    assert LeadExtends(g.leads[s.term], h.leads[s.term], s.term);
    ChosenStays(d, h, more, k, s.term);
    if m.index > s.snapIndex && m.index <= Top(s) { EntryOnWhole(g, s, m.index); }
  }
}
