/** Where logs come from: in the runs in which no message leaves a stale tail, an entry's index and term
    determine the whole log up to it, and the logs of nodes and messages are parts of such logs. */
module LogPaths {
  import opened KvTypes
  import opened RaftNode
  import opened Cluster
  import opened ElectionSafety
  import opened EntryIdentity
  import opened CommitQuorum
  import opened StaleTail

  // ------------------------------------------------------------- the condition

  /** The branch of AppendEntries that keeps a stale tail is not taken. */
  predicate CleanAppend(s: Node, a: AppendEntriesArgs)
    requires Sound(s)
  {
    a.term >= s.term && Matches(s, a) ==>
      !(Conflicts(s.logs, a.prevLogIndex - s.snapIndex, a.entries) && Top(s) > EndIndex(a))
  }

  predicate Clean(c: State, a: Action)
    requires Structured(c) && Enabled(c, a)
  {
    match a
    case AnswerAppend(b, s) =>
      assert GoodNode(c.nodes, s);
      CleanAppend(c.nodes[s], c.beats[b].calls[s].args)
    case _ => true
  }

  ghost predicate CleanStep(c: State, d: State) {
    Structured(c) && exists a :: Enabled(c, a) && Clean(c, a) && d == Step(c, a)
  }

  ghost predicate IsCleanRun(n: nat, run: seq<State>) {
    && n >= 1 && |run| >= 1 && run[0] == Init(n)
    && forall t :: 0 <= t < |run| - 1 ==> CleanStep(run[t], run[t + 1])
  }

  // ------------------------------------------------------------------- history

  /** What is remembered of the leader of a term: its whole log so far, and who voted for it. */
  datatype Lead = Lead(log: seq<Entry>, voters: set<nat>)

  /** paths has, for each entry made by Start, by term and index, the whole log that ended with it. */
  datatype Past = Past(paths: map<(int, int), seq<Entry>>, leads: map<int, Lead>)

  function Path(h: Past, term: int, index: int): seq<Entry> {
    if (term, index) in h.paths then h.paths[(term, index)] else []
  }

  /** The log from index 1 on that ends with the node's last entry. The node's own log is the end of it. */
  function Whole(h: Past, s: Node): seq<Entry> {
    Path(h, LastTerm(s), Top(s))
  }

  /** The history after the leader of a term appended an entry, and after a term got its leader. */
  function Appended(h: Past, term: int, e: Entry): Past
    requires term in h.leads
  {
    var l := h.leads[term];
    Past(h.paths[(term, |l.log| + 1) := l.log + [e]], h.leads[term := Lead(l.log + [e], l.voters)])
  }

  function Won(h: Past, term: int, log: seq<Entry>, voters: set<nat>): Past {
    h.(leads := h.leads[term := Lead(log, voters)])
  }

  function Advance(c: State, h: Past, a: Action): Past
    requires Structured(c) && Enabled(c, a)
  {
    match a
    case HearVote(e, s) =>
      var el, el' := c.elections[e], StepHearVote(c, e, s).elections[e];
      if el'.wins > el.wins then Won(h, el.args.term, Whole(h, c.nodes[el.candidate]), Voters(el')) else h
    case Submit(i, command) =>
      var s := c.nodes[i];
      if s.term in h.leads then Appended(h, s.term, Entry(Top(s) + 1, s.term, command)) else h
    case _ => h
  }

  // ----------------------------------------------------------------- invariant

  /** The log holds an entry of that term at the index. */
  predicate At(log: seq<Entry>, index: int, term: int) {
    1 <= index <= |log| && log[index - 1].term == term
  }

  predicate Agree(x: seq<Entry>, y: seq<Entry>, n: int) {
    n <= |x| && n <= |y| && forall k :: 0 <= k < n ==> x[k] == y[k]
  }

  /** The entry at slot k was made at the end of just the log that is before it. */
  predicate OnPath(paths: map<(int, int), seq<Entry>>, log: seq<Entry>, k: nat) {
    && k < |log| && (log[k].term, k + 1) in paths
    && |paths[(log[k].term, k + 1)]| == k + 1 && Agree(paths[(log[k].term, k + 1)], log, k + 1)
  }

  predicate NoFall(log: seq<Entry>, j: nat, k: nat) {
    j <= k < |log| ==> log[j].term <= log[k].term
  }

  ghost predicate GoodLog(paths: map<(int, int), seq<Entry>>, log: seq<Entry>) {
    (forall j, k :: NoFall(log, j, k)) && forall k: nat {:trigger OnPath(paths, log, k)} :: k < |log| ==>
        OnPath(paths, log, k)
  }

  ghost predicate GoodPath(h: Past, term: int, index: int) {
    (term, index) in h.paths ==>
      var path := h.paths[(term, index)];
      && |path| == index >= 1 && path[index - 1].term == term >= 1
      && GoodLog(h.paths, path)
      && term in h.leads && Agree(path, h.leads[term].log, index)
  }

  ghost predicate GoodLead(h: Past, term: int) {
    term in h.leads ==>
      GoodLog(h.paths, h.leads[term].log) && forall k :: 0 <= k < |h.leads[term].log| ==>
          h.leads[term].log[k].term <= term
  }

  ghost predicate PastInv(h: Past) {
    (forall term, index :: GoodPath(h, term, index)) && (forall term :: GoodLead(h, term))
  }

  /** The node's log is the end of f. */
  predicate IsTail(s: Node, f: seq<Entry>) {
    && |f| == Top(s) && 0 <= s.snapIndex
    && forall k {:trigger s.logs[k]} :: 0 <= k < |s.logs| ==> s.logs[k] == f[s.snapIndex + k]
  }

  /** f also ends its snapshot's part with the snapshot's last term: there is no break between the node's
      snapshot and its log. InstallSnapshot can leave a break. */
  predicate Seam(s: Node, f: seq<Entry>) {
    s.snapIndex == 0 || At(f, s.snapIndex, s.snapTerm)
  }

  predicate IsPath(h: Past, term: int, index: int) {
    if index == 0 then term == 0 else (term, index) in h.paths
  }

  ghost predicate NodePath(h: Past, s: Node) {
    && IsTail(s, Whole(h, s)) && GoodLog(h.paths, Whole(h, s)) && IsPath(h, s.snapTerm, s.snapIndex)
    && (s.logs == [] ==> Seam(s, Whole(h, s)))
    && (s.status == Leader ==> s.term in h.leads && h.leads[s.term].log == Whole(h, s))
  }

  /** The message is a part of the log l. */
  predicate PartOf(l: seq<Entry>, a: AppendEntriesArgs) {
    && 0 <= a.prevLogIndex && EndIndex(a) <= |l|
    && (forall k {:trigger a.entries[k]} :: 0 <= k < |a.entries| ==> a.entries[k] == l[a.prevLogIndex + k])
    && a.prevLogTerm == if a.prevLogIndex == 0 then 0 else l[a.prevLogIndex - 1].term
  }

  /** A message carries a part of what its leader's log was, and so does a round. */
  predicate ArgsPath(h: Past, a: AppendEntriesArgs) {
    a.term in h.leads && PartOf(h.leads[a.term].log, a)
  }

  ghost predicate BeatPath(h: Past, b: Beat) {
    && b.term in h.leads && 0 <= b.endIndex <= |h.leads[b.term].log|
    && b.endTerm == (if b.endIndex == 0 then 0 else h.leads[b.term].log[b.endIndex - 1].term)
    && forall s {:trigger b.calls[s]} :: 0 <= s < |b.calls| && HasArgs(b.calls[s]) ==> ArgsPath(h, b.calls[s].args)
  }

  predicate SnapPath(h: Past, k: SnapCall) {
    k.SnapPending? || k.SnapReplied? ==> IsPath(h, k.args.lastTerm, k.args.lastIndex)
  }

  predicate VotePath(h: Past, e: Election) {
    IsPath(h, e.args.lastLogTerm, e.args.lastLogIndex) && e.args.lastLogTerm < e.args.term
  }

  ghost predicate LeadElected(es: seq<Election>, term: int) {
    exists l: nat :: Elected(es, l, term)
  }

  ghost predicate PathInv(c: State, h: Past) {
    && PastInv(h)
    && (forall i {:trigger NodePath(h, c.nodes[i])} :: 0 <= i < |c.nodes| ==> NodePath(h, c.nodes[i]))
    && (forall b {:trigger BeatPath(h, c.beats[b])} :: 0 <= b < |c.beats| ==> BeatPath(h, c.beats[b]))
    && (forall k {:trigger SnapPath(h, c.snaps[k])} :: 0 <= k < |c.snaps| ==> SnapPath(h, c.snaps[k]))
    && (forall e {:trigger VotePath(h, c.elections[e])} :: 0 <= e < |c.elections| ==> VotePath(h, c.elections[e]))
    && (forall term {:trigger LeadElected(c.elections, term)} :: term in h.leads ==> LeadElected(c.elections, term))
  }

  // ------------------------------------------------------------- log matching

  /** Two good logs that agree on the term at an index agree up to that index. */
  lemma SameUpTo(paths: map<(int, int), seq<Entry>>, x: seq<Entry>, y: seq<Entry>, index: int)
    requires GoodLog(paths, x) && GoodLog(paths, y) && 1 <= index <= |x| && index <= |y|
    requires x[index - 1].term == y[index - 1].term
    ensures Agree(x, y, index)
  {
    assert OnPath(paths, x, index - 1) && OnPath(paths, y, index - 1);
  }

  lemma GoodPrefix(paths: map<(int, int), seq<Entry>>, x: seq<Entry>, n: nat)
    requires GoodLog(paths, x) && n <= |x|
    ensures GoodLog(paths, x[..n])
  {
    forall k: nat | k < n ensures OnPath(paths, x[..n], k) {
      assert OnPath(paths, x, k);
    }
    forall j: nat, k: nat ensures NoFall(x[..n], j, k) {
      assert NoFall(x, j, k);
    }
  }

  lemma EndOf(s: Node, f: seq<Entry>)
    requires Sound(s) && IsTail(s, f) && (s.logs == [] ==> Seam(s, f)) && |f| > 0
    ensures f[|f| - 1].term == LastTerm(s)
  {
    assert s.logs != [] ==> s.logs[|s.logs| - 1] == f[|f| - 1];
  }

  /** The history knows the log that a node's log is the end of. */
  lemma WholeIs(h: Past, s: Node, f: seq<Entry>)
    requires PastInv(h) && Sound(s) && IsTail(s, f) && GoodLog(h.paths, f) && (s.logs == [] ==> Seam(s, f))
    ensures Whole(h, s) == f
  {
    if |f| == 0 {
      assert GoodPath(h, LastTerm(s), 0);
    } else {
      EndOf(s, f);
      assert OnPath(h.paths, f, |f| - 1);
    }
  }

  // ------------------------------------------------------------- what nodes do

  /** The first end entries of l laid over f: the longer of the two. */
  function Laid(f: seq<Entry>, l: seq<Entry>, end: nat): seq<Entry>
    requires end <= |l|
  {
    if end >= |f| then l[..end] else f
  }

  /** p is what the snapshot of s covers, and l has it. */
  predicate Anchor(s: Node, p: seq<Entry>, l: seq<Entry>) {
    && |p| == s.snapIndex && Agree(p, l, |p|)
    && (s.snapIndex > 0 ==> p[s.snapIndex - 1].term == s.snapTerm)
  }

  lemma PrevAgrees(paths: map<(int, int), seq<Entry>>, s: Node, f: seq<Entry>, l: seq<Entry>, p: seq<Entry>,
                   a: AppendEntriesArgs)
    requires GoodLog(paths, f) && GoodLog(paths, l) && IsTail(s, f) && Anchor(s, p, l) && PartOf(l, a) && Matches(s, a)
    requires a.prevLogIndex > s.snapIndex || Seam(s, f)
    ensures Agree(f, l, a.prevLogIndex) && Seam(s, f)
  {
    if a.prevLogIndex > s.snapIndex {
      assert s.logs[a.prevLogIndex - s.snapIndex - 1] == f[a.prevLogIndex - 1];
    }
    if a.prevLogIndex > 0 { SameUpTo(paths, f, l, a.prevLogIndex); }
    if s.snapIndex > 0 { assert f[s.snapIndex - 1] == l[s.snapIndex - 1] == p[s.snapIndex - 1]; }
  }

  lemma SameSlot(paths: map<(int, int), seq<Entry>>, s: Node, f: seq<Entry>, l: seq<Entry>, k: nat)
    requires GoodLog(paths, f) && GoodLog(paths, l) && IsTail(s, f) && k < |s.logs| && s.snapIndex + k < |l|
    requires s.logs[k].term == l[s.snapIndex + k].term
    ensures s.logs[k] == l[s.snapIndex + k] && Agree(f, l, s.snapIndex + k + 1)
  {
    SameUpTo(paths, f, l, s.snapIndex + k + 1);
  }

  /** A message that is no shorter than the log replaces it. */
  lemma MergedLong(paths: map<(int, int), seq<Entry>>, s: Node, f: seq<Entry>, l: seq<Entry>, p: seq<Entry>,
                   a: AppendEntriesArgs, k: nat)
    requires GoodLog(paths, f) && GoodLog(paths, l) && IsTail(s, f) && Anchor(s, p, l) && PartOf(l, a) && Matches(s, a)
    requires EndIndex(a) >= |f| && k < EndIndex(a) - s.snapIndex
    ensures var merged := Merged(s.logs, a.prevLogIndex - s.snapIndex, a.entries);
            |merged| == EndIndex(a) - s.snapIndex && merged[k] == l[s.snapIndex + k]
  {
    var off := a.prevLogIndex - s.snapIndex;
    if k < off {
      PrevAgrees(paths, s, f, l, p, a);
      assert s.logs[k] == f[s.snapIndex + k];
    } else if k < |s.logs| && s.logs[k].term == a.entries[k - off].term {
      SameSlot(paths, s, f, l, k);
    }
  }

  /** Entries that meet no conflict and end within the log change nothing. */
  lemma MergedSame(logs: seq<Entry>, off: nat, entries: seq<Entry>)
    requires off + |entries| <= |logs| && !Conflicts(logs, off, entries)
    ensures Merged(logs, off, entries) == logs
  {
    var merged := Merged(logs, off, entries);
    assert |merged| == |logs|;
    forall k | 0 <= k < |logs| ensures merged[k] == logs[k] {
      if off <= k < off + |entries| { assert logs[off + (k - off)].term == entries[k - off].term; }
    }
  }

  /** A shorter message that meets no conflict changes nothing. */
  lemma MergedShort(s: Node, a: AppendEntriesArgs)
    requires Matches(s, a) && EndIndex(a) < Top(s)
    requires !Conflicts(s.logs, a.prevLogIndex - s.snapIndex, a.entries)
    ensures Merged(s.logs, a.prevLogIndex - s.snapIndex, a.entries) == s.logs
  {
    MergedSame(s.logs, a.prevLogIndex - s.snapIndex, a.entries);
  }

  /** What a shorter message says is in the log already, or it ends with the snapshot. */
  lemma ShortAgrees(paths: map<(int, int), seq<Entry>>, s: Node, f: seq<Entry>, l: seq<Entry>, p: seq<Entry>,
                    a: AppendEntriesArgs)
    requires GoodLog(paths, f) && GoodLog(paths, l) && IsTail(s, f) && Anchor(s, p, l) && PartOf(l, a) && Matches(s, a)
    requires EndIndex(a) < |f| && !Conflicts(s.logs, a.prevLogIndex - s.snapIndex, a.entries)
    ensures if Seam(s, f) then Agree(f, l, EndIndex(a)) else EndIndex(a) == s.snapIndex
  {
    if a.entries != [] {
      var k := |a.entries| - 1;
      assert s.logs[a.prevLogIndex - s.snapIndex + k].term == a.entries[k].term;
      SameSlot(paths, s, f, l, a.prevLogIndex - s.snapIndex + k);
      if s.snapIndex > 0 { assert f[s.snapIndex - 1] == l[s.snapIndex - 1] == p[s.snapIndex - 1]; }
    } else if a.prevLogIndex > s.snapIndex || Seam(s, f) {
      PrevAgrees(paths, s, f, l, p, a);
    }
  }

  /** What is known of a node's log after a message from the leader with log l, or a snapshot. */
  ghost predicate LaidOver(paths: map<(int, int), seq<Entry>>, s: Node, f: seq<Entry>, t: Node, l: seq<Entry>, end: nat)
    requires end <= |l|
  {
    var g := Laid(f, l, end);
    && GoodLog(paths, g) && IsTail(t, g) && (t.logs == [] ==> Seam(t, g)) && (end >= |f| ==> Seam(t, g))
    && t.snapIndex >= s.snapIndex
  }

  lemma AcceptPath(paths: map<(int, int), seq<Entry>>, s: Node, f: seq<Entry>, l: seq<Entry>, p: seq<Entry>,
                   a: AppendEntriesArgs)
    requires GoodLog(paths, f) && GoodLog(paths, l) && IsTail(s, f) && Anchor(s, p, l) && PartOf(l, a) && Matches(s, a)
    requires Sound(s) && a.term >= s.term && CleanAppend(s, a) && (s.logs == [] ==> Seam(s, f))
    ensures LaidOver(paths, s, f, Accepted(s, a), l, EndIndex(a))
    ensures EndIndex(a) < |f| ==> Accepted(s, a).logs == s.logs
    ensures EndIndex(a) < |f| ==> if Seam(s, f) then Agree(f, l, EndIndex(a)) else EndIndex(a) == s.snapIndex
  {
    if EndIndex(a) >= |f| {
      GoodPrefix(paths, l, EndIndex(a));
      AcceptLong(paths, s, f, l, p, a);
    } else {
      MergedShort(s, a);
      AcceptShort(paths, s, f, l, a);
      ShortAgrees(paths, s, f, l, p, a);
    }
  }

  /** A node whose log the message does not change keeps what is known of it. */
  lemma AcceptShort(paths: map<(int, int), seq<Entry>>, s: Node, f: seq<Entry>, l: seq<Entry>, a: AppendEntriesArgs)
    requires GoodLog(paths, f) && IsTail(s, f) && (s.logs == [] ==> Seam(s, f))
    requires Sound(s) && Matches(s, a) && EndIndex(a) < |f| && EndIndex(a) <= |l|
    requires Merged(s.logs, a.prevLogIndex - s.snapIndex, a.entries) == s.logs
    ensures Accepted(s, a).logs == s.logs && LaidOver(paths, s, f, Accepted(s, a), l, EndIndex(a))
  {}

  lemma AcceptLong(paths: map<(int, int), seq<Entry>>, s: Node, f: seq<Entry>, l: seq<Entry>, p: seq<Entry>,
                   a: AppendEntriesArgs)
    requires GoodLog(paths, f) && GoodLog(paths, l) && IsTail(s, f) && Anchor(s, p, l) && PartOf(l, a) && Matches(s, a)
    requires Sound(s) && EndIndex(a) >= |f|
    ensures IsTail(Accepted(s, a), l[..EndIndex(a)]) && Seam(Accepted(s, a), l[..EndIndex(a)])
  {
    var t, m := Accepted(s, a), l[..EndIndex(a)];
    forall k: nat | k < EndIndex(a) - s.snapIndex
        ensures |t.logs| == EndIndex(a) - s.snapIndex && t.logs[k] == m[s.snapIndex + k] {
      MergedLong(paths, s, f, l, p, a, k);
    }
    if s.snapIndex > 0 { assert m[s.snapIndex - 1] == p[s.snapIndex - 1]; }
  }

  lemma InstallPath(paths: map<(int, int), seq<Entry>>, s: Node, f: seq<Entry>, p: seq<Entry>, a: InstallSnapshotArgs)
    requires GoodLog(paths, f) && GoodLog(paths, p) && IsTail(s, f) && Sound(s)
    requires s.snapIndex < a.lastIndex == |p| && p[|p| - 1].term == a.lastTerm
    ensures LaidOver(paths, s, f, Installed(s, a), p, |p|)
    ensures |p| < |f| && Seam(Installed(s, a), f) ==> Agree(f, p, |p|)
  {
    var t := Installed(s, a);
    assert p[..|p|] == p;
    if Top(s) > a.lastIndex {
      forall k | 0 <= k < |t.logs| ensures t.logs[k] == f[t.snapIndex + k] {
        assert t.logs[k] == s.logs[a.lastIndex - s.snapIndex + k];
      }
      if Seam(t, f) { SameUpTo(paths, f, p, a.lastIndex); }
    }
  }

  lemma CompactPath(s: Node, f: seq<Entry>, index: int, data: Image)
    requires IsTail(s, f) && Sound(s)
    ensures IsTail(Compact(s, index, data), f)
    ensures Compact(s, index, data).snapIndex > s.snapIndex ==> Seam(Compact(s, index, data), f)
  {
    var t := Compact(s, index, data);
    if s.snapIndex < index <= s.commitIndex {
      forall k | 0 <= k < |t.logs| ensures t.logs[k] == f[t.snapIndex + k] {
        assert t.logs[k] == s.logs[index - s.snapIndex + k];
      }
      assert s.logs[index - s.snapIndex - 1] == f[index - 1];
    }
  }

  lemma StartPath(s: Node, f: seq<Entry>, command: Command)
    requires IsTail(s, f) && Sound(s) && s.status == Leader
    ensures IsTail(Start(s, command), f + [Entry(Top(s) + 1, s.term, command)])
  {
    LastIndexSound(s);
  }

  // --------------------------------------------------------- the history grows

  ghost predicate LeadExtends(l: Lead, m: Lead, term: int) {
    && Agree(l.log, m.log, |l.log|) && l.voters == m.voters
    && forall k {:trigger m.log[k]} :: |l.log| <= k < |m.log| ==> m.log[k].term == term
  }

  ghost predicate PastExtends(g: Past, h: Past) {
    && (forall key {:trigger h.paths[key]} {:trigger g.paths[key]} ::
          key in g.paths ==> key in h.paths && h.paths[key] == g.paths[key])
    && (forall term {:trigger h.leads[term]} {:trigger g.leads[term]} ::
          term in g.leads ==> term in h.leads && LeadExtends(g.leads[term], h.leads[term], term))
  }

  lemma GoodLogExtends(g: Past, h: Past, log: seq<Entry>)
    requires PastExtends(g, h) && GoodLog(g.paths, log)
    ensures GoodLog(h.paths, log)
  {
    forall k: nat | k < |log| ensures OnPath(h.paths, log, k) {
      assert OnPath(g.paths, log, k);
    }
  }

  lemma PathExtends(g: Past, h: Past, term: int, index: int)
    requires PastInv(g) && PastInv(h) && PastExtends(g, h) && IsPath(g, term, index)
    ensures IsPath(h, term, index) && Path(h, term, index) == Path(g, term, index)
  {
    assert GoodPath(g, term, index) && GoodPath(h, term, index);
    if index > 0 { assert h.paths[(term, index)] == g.paths[(term, index)]; }
  }

  lemma WholeExtends(g: Past, h: Past, s: Node)
    requires PastInv(g) && PastInv(h) && PastExtends(g, h) && Sound(s) && NodePath(g, s)
    requires s.status == Leader ==> s.term in h.leads && h.leads[s.term].log == g.leads[s.term].log
    ensures NodePath(h, s) && Whole(h, s) == Whole(g, s)
  {
    GoodLogExtends(g, h, Whole(g, s));
    PathExtends(g, h, s.snapTerm, s.snapIndex);
    WholeIs(h, s, Whole(g, s));
  }

  lemma ArgsExtend(g: Past, h: Past, a: AppendEntriesArgs)
    requires PastExtends(g, h) && ArgsPath(g, a)
    ensures ArgsPath(h, a)
  {
    assert LeadExtends(g.leads[a.term], h.leads[a.term], a.term);
  }

  lemma BeatExtends(g: Past, h: Past, b: Beat)
    requires PastExtends(g, h) && BeatPath(g, b)
    ensures BeatPath(h, b)
  {
    assert LeadExtends(g.leads[b.term], h.leads[b.term], b.term);
    forall s | 0 <= s < |b.calls| && HasArgs(b.calls[s]) ensures ArgsPath(h, b.calls[s].args) {
      ArgsExtend(g, h, b.calls[s].args);
    }
  }

  lemma AppendedExtends(h: Past, term: int, e: Entry)
    requires PastInv(h) && term in h.leads && e.term == term
    ensures PastExtends(h, Appended(h, term, e))
  {
    assert GoodPath(h, term, |h.leads[term].log| + 1);
  }

  lemma AppendedLog(h: Past, term: int, e: Entry)
    requires PastInv(h) && term in h.leads && e.term == term
    ensures GoodLog(Appended(h, term, e).paths, h.leads[term].log + [e])
  {
    var g, l := Appended(h, term, e), h.leads[term].log;
    AppendedExtends(h, term, e);
    assert GoodLead(h, term);
    GoodLogExtends(h, g, l);
    forall k: nat | k < |l| + 1 ensures OnPath(g.paths, l + [e], k) {
      assert k < |l| ==> OnPath(g.paths, l, k);
    }
    forall j: nat, k: nat ensures NoFall(l + [e], j, k) {
      assert NoFall(l, j, k);
    }
  }

  lemma AppendedPath(h: Past, term: int, e: Entry, t: int, i: int)
    requires PastInv(h) && term in h.leads && e.term == term >= 1
    requires PastExtends(h, Appended(h, term, e)) && GoodLog(Appended(h, term, e).paths, h.leads[term].log + [e])
    ensures GoodPath(Appended(h, term, e), t, i)
  {
    assert GoodPath(h, t, i);
    if (t, i) in h.paths {
      GoodLogExtends(h, Appended(h, term, e), h.paths[(t, i)]);
      assert Appended(h, term, e).paths[(t, i)] == h.paths[(t, i)];
    }
  }

  lemma AppendedInv(h: Past, term: int, e: Entry)
    requires PastInv(h) && term in h.leads && e.term == term >= 1
    ensures PastInv(Appended(h, term, e))
  {
    var g := Appended(h, term, e);
    AppendedExtends(h, term, e);
    AppendedLog(h, term, e);
    forall t, i ensures GoodPath(g, t, i) {
      AppendedPath(h, term, e, t, i);
    }
    forall t ensures GoodLead(g, t) {
      assert GoodLead(h, t);
      if t in h.leads && t != term { GoodLogExtends(h, g, h.leads[t].log); }
    }
  }

  lemma WonInv(h: Past, term: int, log: seq<Entry>, voters: set<nat>)
    requires PastInv(h) && term !in h.leads && GoodLog(h.paths, log)
    requires forall k :: 0 <= k < |log| ==> log[k].term <= term
    ensures PastInv(Won(h, term, log, voters)) && PastExtends(h, Won(h, term, log, voters))
  {
    var g := Won(h, term, log, voters);
    forall t, i ensures GoodPath(g, t, i) {
      assert GoodPath(h, t, i);
    }
    forall t ensures GoodLead(g, t) {
      assert GoodLead(h, t);
    }
  }

  // ------------------------------------------------------------- nodes keep it

  /** The node takes over the message, or the snapshot. */
  predicate Takes(s: Node, a: AppendEntriesArgs) {
    a.term >= s.term && Matches(s, a)
  }

  predicate TakesSnap(s: Node, a: InstallSnapshotArgs) {
    a.term >= s.term && a.lastIndex > s.snapIndex
  }

  /** Nothing that belongs to the log differs between the two nodes. */
  predicate SameLog(s: Node, t: Node) {
    t.logs == s.logs && t.snapIndex == s.snapIndex && t.snapTerm == s.snapTerm
  }

  lemma FollowSame(s: Node, a: AppendEntriesArgs)
    requires Sound(s) && Contiguous(a) && Takes(s, a)
    ensures var r := Follow(s, a.term);
            && Sound(r) && SameLog(s, r) && Matches(r, a) && r.term == a.term && r.commitIndex == s.commitIndex
            && HandleAppend(s, a).node == Persist(Accepted(r, a)) && HandleAppend(s, a).reply.success
  {}

  lemma NotTaken(s: Node, a: AppendEntriesArgs)
    requires Sound(s) && Contiguous(a) && !Takes(s, a)
    ensures SameLog(s, HandleAppend(s, a).node) && !HandleAppend(s, a).reply.success
    ensures HandleAppend(s, a).node.commitIndex == s.commitIndex
  {}

  /** The log after a message, and how much of the message it has. */
  ghost predicate TookOver(paths: map<(int, int), seq<Entry>>, s: Node, f: seq<Entry>, t: Node, l: seq<Entry>, end: nat)
    requires end <= |l|
  {
    && LaidOver(paths, s, f, t, l, end)
    && t.snapIndex == s.snapIndex && t.snapTerm == s.snapTerm
    && (end < |f| ==> t.logs == s.logs && if Seam(s, f) then Agree(f, l, end) else end == s.snapIndex)
  }

  lemma TookSame(paths: map<(int, int), seq<Entry>>, s: Node, r: Node, f: seq<Entry>, t: Node, u: Node, l: seq<Entry>,
                 end: nat)
    requires SameLog(s, r) && SameLog(t, u) && end <= |l| && TookOver(paths, r, f, t, l, end)
    ensures TookOver(paths, s, f, u, l, end)
  {}

  lemma AnchorSame(s: Node, r: Node, f: seq<Entry>, l: seq<Entry>, p: seq<Entry>)
    requires SameLog(s, r) && IsTail(s, f) && Anchor(s, p, l) && (s.logs == [] ==> Seam(s, f))
    ensures IsTail(r, f) && Anchor(r, p, l) && (r.logs == [] ==> Seam(r, f))
  {}

  lemma CleanSame(s: Node, r: Node, a: AppendEntriesArgs)
    requires Sound(s) && Sound(r) && SameLog(s, r) && Takes(s, a) && CleanAppend(s, a)
    ensures CleanAppend(r, a)
  {}

  lemma TakenWhole(paths: map<(int, int), seq<Entry>>, s: Node, f: seq<Entry>, l: seq<Entry>, p: seq<Entry>,
                   a: AppendEntriesArgs)
    requires GoodLog(paths, f) && GoodLog(paths, l) && IsTail(s, f) && Anchor(s, p, l) && PartOf(l, a)
    requires Sound(s) && Contiguous(a) && CleanAppend(s, a) && Takes(s, a) && (s.logs == [] ==> Seam(s, f))
    ensures TookOver(paths, s, f, HandleAppend(s, a).node, l, EndIndex(a))
  {
    var r := Follow(s, a.term);
    FollowSame(s, a);
    AnchorSame(s, r, f, l, p);
    CleanSame(s, r, a);
    AcceptPath(paths, r, f, l, p, a);
    TookSame(paths, s, r, f, Accepted(r, a), HandleAppend(s, a).node, l, EndIndex(a));
  }

  lemma AppendPath(h: Past, s: Node, a: AppendEntriesArgs)
    requires PastInv(h) && NodePath(h, s) && Sound(s) && Contiguous(a) && ArgsPath(h, a) && CleanAppend(s, a)
    requires Takes(s, a) && Anchor(s, Path(h, s.snapTerm, s.snapIndex), h.leads[a.term].log)
    ensures var t, l := HandleAppend(s, a).node, h.leads[a.term].log;
            && NodePath(h, t) && Whole(h, t) == Laid(Whole(h, s), l, EndIndex(a))
            && TookOver(h.paths, s, Whole(h, s), t, l, EndIndex(a))
  {
    var f, l, t := Whole(h, s), h.leads[a.term].log, HandleAppend(s, a).node;
    assert GoodLead(h, a.term);
    AppendSteady(s, a);
    FollowSame(s, a);
    TakenWhole(h.paths, s, f, l, Path(h, s.snapTerm, s.snapIndex), a);
    WholeIs(h, t, Laid(f, l, EndIndex(a)));
  }

  function SnapFollow(s: Node, term: int): Node {
    (if term > s.term then Persist(StepDown(s, term)) else s).(status := Follower)
  }

  lemma SnapFollowSame(s: Node, a: InstallSnapshotArgs)
    requires Sound(s) && SaneSnapshot(a) && TakesSnap(s, a)
    ensures var r := SnapFollow(s, a.term);
            && Sound(r) && SameLog(s, r) && r.term == a.term && r.commitIndex == s.commitIndex
            && HandleInstall(s, a).node == Persist(Installed(r, a))
  {}

  lemma SnapNotTaken(s: Node, a: InstallSnapshotArgs)
    requires Sound(s) && SaneSnapshot(a) && !TakesSnap(s, a)
    ensures SameLog(s, HandleInstall(s, a).node) && HandleInstall(s, a).node.commitIndex == s.commitIndex
  {}

  lemma SnapWhole(paths: map<(int, int), seq<Entry>>, s: Node, f: seq<Entry>, p: seq<Entry>, a: InstallSnapshotArgs)
    requires GoodLog(paths, f) && GoodLog(paths, p) && IsTail(s, f) && Sound(s) && SaneSnapshot(a)
    requires TakesSnap(s, a) && a.lastIndex == |p| && p[|p| - 1].term == a.lastTerm
    ensures var t := HandleInstall(s, a).node;
            && LaidOver(paths, s, f, t, p, |p|)
            && t.snapIndex == a.lastIndex && t.snapTerm == a.lastTerm && t.status == Follower
            && (|p| < |f| && Seam(t, f) ==> Agree(f, p, |p|))
  {
    SnapFollowSame(s, a);
    InstallPath(paths, SnapFollow(s, a.term), f, p, a);
  }

  lemma SnapTaken(h: Past, s: Node, a: InstallSnapshotArgs)
    requires PastInv(h) && NodePath(h, s) && Sound(s) && SaneSnapshot(a) && TakesSnap(s, a)
    requires IsPath(h, a.lastTerm, a.lastIndex)
    ensures var t, p := HandleInstall(s, a).node, Path(h, a.lastTerm, a.lastIndex);
            && |p| == a.lastIndex && NodePath(h, t) && Whole(h, t) == Laid(Whole(h, s), p, |p|)
            && LaidOver(h.paths, s, Whole(h, s), t, p, |p|)
            && t.snapIndex == a.lastIndex && t.snapTerm == a.lastTerm
            && (|p| < |Whole(h, s)| && Seam(t, Whole(h, s)) ==> Agree(Whole(h, s), p, |p|))
  {
    var f, t, p := Whole(h, s), HandleInstall(s, a).node, Path(h, a.lastTerm, a.lastIndex);
    assert GoodPath(h, a.lastTerm, a.lastIndex);
    InstallSteady(s, a);
    SnapWhole(h.paths, s, f, p, a);
    WholeIs(h, t, Laid(f, p, |p|));
  }

  lemma SameLogPath(h: Past, s: Node, t: Node)
    requires PastInv(h) && NodePath(h, s) && Sound(s) && Sound(t) && NoNewLeader(s, t) && SameLog(s, t)
    ensures NodePath(h, t) && Whole(h, t) == Whole(h, s)
  {
    WholeIs(h, t, Whole(h, s));
  }

  // ------------------------------------------------------------ what clean means

  /** The code does with a message what the paper's receiver rule asks for. */
  predicate AsPaper(s: Node, a: AppendEntriesArgs)
    requires Sound(s) && Takes(s, a)
  {
    Accepted(s, a).logs == PaperMerged(s.logs, a.prevLogIndex - s.snapIndex, a.entries)
  }

  lemma KnownCall(c: State, b: nat, k: nat)
    requires SafeSoFar(c) && Enabled(c, AnswerAppend(b, k))
    ensures Sound(c.nodes[k]) && Contiguous(c.beats[b].calls[k].args)
    ensures Known(c.created, c.nodes[k].logs) && Known(c.created, c.beats[b].calls[k].args.entries)
  {
    assert GoodBeat(c.nodes, c.beats[b]) && GoodCall(c.beats[b], c.beats[b].calls[k]) && GoodNode(c.nodes, k);
    assert CallsKnown(c.created, c.beats[b]);
  }

  /** A message is clean exactly when the code does with it what the paper asks for. */
  lemma CleanIsPaper(n: nat, run: seq<State>, t: nat, b: nat, k: nat, s: Node, a: AppendEntriesArgs)
    requires IsRun(n, run) && t < |run| && Enabled(run[t], AnswerAppend(b, k))
    requires s == run[t].nodes[k] && a == run[t].beats[b].calls[k].args && Takes(s, a)
    ensures Sound(s) && (CleanAppend(s, a) <==> AsPaper(s, a))
  {
    RunSafe(n, run, t);
    KnownCall(run[t], b, k);
    KnownPaper(run[t].created, s, a);
  }

  lemma KnownPaper(created: map<(int, int), Command>, s: Node, a: AppendEntriesArgs)
    requires Sound(s) && Contiguous(a) && Takes(s, a) && Known(created, s.logs) && Known(created, a.entries)
    ensures CleanAppend(s, a) <==> AsPaper(s, a)
  {
    PaperUnlessStaleTail(s.logs, a.prevLogIndex - s.snapIndex, a.entries);
  }

  /** The paper's rule for a snapshot (section 7): what follows its last entry stays if the log has that
      entry, and otherwise the whole log goes. */
  function PaperSuffix(s: Node, a: InstallSnapshotArgs): seq<Entry>
    requires Sound(s) && s.snapIndex < a.lastIndex
  {
    if a.lastIndex <= Top(s) && TermAt(s, a.lastIndex) == a.lastTerm then s.logs[a.lastIndex - s.snapIndex..] else []
  }

  /** The code departs from that rule exactly when a longer log has another term at the snapshot's last
      index. The theorems on safety allow this departure. */
  lemma PaperSnapshotIff(s: Node, a: InstallSnapshotArgs)
    requires Sound(s) && SaneSnapshot(a) && TakesSnap(s, a)
    ensures HandleInstall(s, a).node.logs != PaperSuffix(s, a)
            <==> Top(s) > a.lastIndex && TermAt(s, a.lastIndex) != a.lastTerm
  {
    if a.lastIndex < Top(s) { assert |s.logs[a.lastIndex - s.snapIndex..]| > 0; }
  }

  // ------------------------------------------------------- every step keeps it

  ghost predicate HistoryOf(c: State, h: Past) {
    SafeSoFar(c) && PathInv(c, h)
  }

  /** A leader's log has no break, and every later leader has what the node's snapshot covers. That this
      holds in every clean run is part of what LeaderCompleteness proves. */
  ghost predicate NodeAnchored(h: Past, s: Node) {
    && (s.status == Leader ==> Seam(s, Whole(h, s)))
    && forall u {:trigger h.leads[u]} :: u in h.leads && s.term <= u ==>
         Anchor(s, Path(h, s.snapTerm, s.snapIndex), h.leads[u].log)
  }

  ghost predicate Anchored(c: State, h: Past) {
    forall i {:trigger NodeAnchored(h, c.nodes[i])} :: 0 <= i < |c.nodes| ==> NodeAnchored(h, c.nodes[i])
  }

  /** A term that gets its leader had none before. */
  lemma WinFresh(c: State, h: Past, e: nat, s: nat)
    requires HistoryOf(c, h) && Enabled(c, HearVote(e, s))
    requires StepHearVote(c, e, s).elections[e].wins > c.elections[e].wins
    ensures var el := c.elections[e];
            && el.candidate < |c.nodes| && c.nodes[el.candidate].term == el.args.term && el.args.term !in h.leads
            && StepHearVote(c, e, s).nodes[el.candidate] == BecomeLeader(c.nodes[el.candidate])
  {
    var el := c.elections[e];
    assert GoodElection(c.nodes, el);
    WinIsFirst(c, e, s, el.candidate);
    if el.args.term in h.leads {
      assert LeadElected(c.elections, el.args.term);
      var l: nat :| Elected(c.elections, l, el.args.term);
      WinIsFirst(c, e, s, l);
    }
  }

  lemma TermsBounded(h: Past, s: Node)
    requires NodePath(h, s) && Sound(s)
    ensures forall k :: 0 <= k < |Whole(h, s)| ==> Whole(h, s)[k].term <= s.term
  {
    var f := Whole(h, s);
    if |f| > 0 { EndOf(s, f); }
    forall k | 0 <= k < |f| ensures f[k].term <= s.term {
      assert NoFall(f, k, |f| - 1);
    }
  }

  lemma WinGrows(c: State, h: Past, e: nat, s: nat)
    requires HistoryOf(c, h) && Enabled(c, HearVote(e, s))
    requires StepHearVote(c, e, s).elections[e].wins > c.elections[e].wins
    ensures var el := c.elections[e];
            && el.candidate < |c.nodes|
            && var h' := Won(h, el.args.term, Whole(h, c.nodes[el.candidate]),
                             Voters(StepHearVote(c, e, s).elections[e]));
               PastInv(h') && PastExtends(h, h')
  {
    var el := c.elections[e];
    WinFresh(c, h, e, s);
    assert GoodNode(c.nodes, el.candidate) && NodePath(h, c.nodes[el.candidate]);
    TermsBounded(h, c.nodes[el.candidate]);
    WonInv(h, el.args.term, Whole(h, c.nodes[el.candidate]), Voters(StepHearVote(c, e, s).elections[e]));
  }

  lemma SubmitGrows(c: State, h: Past, i: nat, command: Command)
    requires Structured(c) && PastInv(h) && Enabled(c, Submit(i, command)) && NodePath(h, c.nodes[i])
    ensures var e := Entry(Top(c.nodes[i]) + 1, c.nodes[i].term, command);
            && c.nodes[i].term in h.leads
            && PastInv(Appended(h, c.nodes[i].term, e)) && PastExtends(h, Appended(h, c.nodes[i].term, e))
  {
    var e := Entry(Top(c.nodes[i]) + 1, c.nodes[i].term, command);
    assert GoodNode(c.nodes, i);
    AppendedExtends(h, e.term, e);
    AppendedInv(h, e.term, e);
  }

  lemma HeardAdvance(c: State, h: Past, e: nat, s: nat)
    requires Structured(c) && Enabled(c, HearVote(e, s))
    ensures var el, el' := c.elections[e], StepHearVote(c, e, s).elections[e];
            && el.candidate < |c.nodes|
            && Advance(c, h, HearVote(e, s))
               == if el'.wins > el.wins then Won(h, el.args.term, Whole(h, c.nodes[el.candidate]), Voters(el')) else h
  {}

  lemma HeardGrows(c: State, h: Past, e: nat, s: nat)
    requires HistoryOf(c, h) && Enabled(c, HearVote(e, s))
    ensures PastInv(Advance(c, h, HearVote(e, s))) && PastExtends(h, Advance(c, h, HearVote(e, s)))
  {
    HeardAdvance(c, h, e, s);
    if StepHearVote(c, e, s).elections[e].wins > c.elections[e].wins { WinGrows(c, h, e, s); }
  }

  lemma HistoryGrows(c: State, h: Past, a: Action)
    requires HistoryOf(c, h) && Enabled(c, a)
    ensures PastInv(Advance(c, h, a)) && PastExtends(h, Advance(c, h, a))
  {
    if a.HearVote? {
      HeardGrows(c, h, a.e, a.s);
    } else if a.Submit? {
      assert NodePath(h, c.nodes[a.i]);
      SubmitGrows(c, h, a.i, a.command);
    }
  }

  lemma VotedSame(s: Node, reply: RequestVoteReply, votedNum: int)
    requires Sound(s)
    ensures var out := HandleVoteReply(s, reply, votedNum);
            && SameLog(s, out.node) && Sound(out.node)
            && (out.node.status == Leader ==> out.node.term == s.term && (s.status == Leader || out.won))
  {
    VoteReplySteady(s, reply, votedNum);
  }

  lemma VotedPath(g: Past, h: Past, s: Node, t: Node)
    requires PastInv(g) && PastInv(h) && PastExtends(g, h) && NodePath(g, s) && Sound(s) && Sound(t) && SameLog(s, t)
    requires t.status == Leader ==> t.term in h.leads && h.leads[t.term].log == Whole(g, s)
    ensures NodePath(h, t) && Whole(h, t) == Whole(g, s)
  {
    GoodLogExtends(g, h, Whole(g, s));
    PathExtends(g, h, s.snapTerm, s.snapIndex);
    WholeIs(h, t, Whole(g, s));
  }

  lemma WinnerPath(c: State, h: Past, e: nat, s: nat)
    requires HistoryOf(c, h) && Enabled(c, HearVote(e, s))
    ensures var i, h', d := c.elections[e].candidate, Advance(c, h, HearVote(e, s)), StepHearVote(c, e, s);
            && i < |c.nodes| && NodePath(h', d.nodes[i]) && Whole(h', d.nodes[i]) == Whole(h, c.nodes[i])
  {
    var el, d := c.elections[e], StepHearVote(c, e, s);
    HistoryGrows(c, h, HearVote(e, s));
    HeardAdvance(c, h, e, s);
    assert GoodNode(c.nodes, el.candidate) && NodePath(h, c.nodes[el.candidate]);
    if d.elections[e].wins > el.wins { WinFresh(c, h, e, s); }
    VotedSame(c.nodes[el.candidate], el.calls[s].reply, el.votedNum);
    VotedPath(h, Advance(c, h, HearVote(e, s)), c.nodes[el.candidate], d.nodes[el.candidate]);
  }

  lemma StartedPath(h: Past, s: Node, command: Command)
    requires PastInv(h) && NodePath(h, s) && Sound(s) && s.status == Leader && s.term >= 1
    ensures NodePath(Appended(h, s.term, Entry(Top(s) + 1, s.term, command)), Start(s, command))
  {
    var e := Entry(Top(s) + 1, s.term, command);
    AppendedInv(h, s.term, e);
    StartSteady(s, command);
    StartPath(s, Whole(h, s), command);
    AppendedLog(h, s.term, e);
    WholeIs(Appended(h, s.term, e), Start(s, command), Whole(h, s) + [e]);
  }

  lemma Submitted(c: State, h: Past, i: nat, command: Command)
    requires Structured(c) && Enabled(c, Submit(i, command)) && c.nodes[i].term in h.leads
    ensures var e := Entry(Top(c.nodes[i]) + 1, c.nodes[i].term, command);
            Advance(c, h, Submit(i, command)) == Appended(h, c.nodes[i].term, e)
    ensures Step(c, Submit(i, command)).nodes == c.nodes[i := Start(c.nodes[i], command)]
  {}

  lemma StarterPath(c: State, h: Past, i: nat, command: Command)
    requires Structured(c) && PastInv(h) && Enabled(c, Submit(i, command)) && NodePath(h, c.nodes[i])
    ensures var s := c.nodes[i];
            && s.term in h.leads
            && var e := Entry(Top(s) + 1, s.term, command);
               NodePath(Appended(h, s.term, e), Start(s, command))
  {
    assert GoodNode(c.nodes, i);
    StartedPath(h, c.nodes[i], command);
  }

  /** The log of the acting node after a step, as the history knows it. */
  function WholeAfter(c: State, h: Past, a: Action): seq<Entry>
    requires Structured(c) && Enabled(c, a) && Actor(c, a) < |c.nodes|
  {
    var s := c.nodes[Actor(c, a)];
    var f := Whole(h, s);
    match a
    case AnswerAppend(b, k) =>
      var args := c.beats[b].calls[k].args;
      if Takes(s, args) && args.term in h.leads && 0 <= EndIndex(args) <= |h.leads[args.term].log|
      then Laid(f, h.leads[args.term].log, EndIndex(args)) else f
    case AnswerSnap(k) =>
      var args := c.snaps[k].args;
      var p := Path(h, args.lastTerm, args.lastIndex);
      if TakesSnap(s, args) then Laid(f, p, |p|) else f
    case Submit(_, command) => if s.term in h.leads then Advance(c, h, a).leads[s.term].log else f
    case _ => f
  }

  lemma AnswererPath(c: State, h: Past, b: nat, k: nat)
    requires Structured(c) && PastInv(h) && Enabled(c, AnswerAppend(b, k)) && Clean(c, AnswerAppend(b, k))
    requires NodePath(h, c.nodes[k]) && NodeAnchored(h, c.nodes[k]) && BeatPath(h, c.beats[b])
    ensures var t := StepAnswerAppend(c, b, k).nodes[k];
            NodePath(h, t) && Whole(h, t) == WholeAfter(c, h, AnswerAppend(b, k))
  {
    assert GoodBeat(c.nodes, c.beats[b]) && GoodCall(c.beats[b], c.beats[b].calls[k]) && GoodNode(c.nodes, k);
    var s, a := c.nodes[k], c.beats[b].calls[k].args;
    AppendSteady(s, a);
    if Takes(s, a) {
      AppendPath(h, s, a);
    } else {
      NotTaken(s, a);
      SameLogPath(h, s, HandleAppend(s, a).node);
    }
  }

  lemma InstallerPath(c: State, h: Past, k: nat)
    requires Structured(c) && PastInv(h) && Enabled(c, AnswerSnap(k))
    requires NodePath(h, c.nodes[c.snaps[k].server]) && SnapPath(h, c.snaps[k])
    ensures var t := StepAnswerSnap(c, k).nodes[c.snaps[k].server];
            Actor(c, AnswerSnap(k)) < |c.nodes| && NodePath(h, t) && Whole(h, t) == WholeAfter(c, h, AnswerSnap(k))
  {
    var s, a := c.nodes[c.snaps[k].server], c.snaps[k].args;
    assert GoodSnap(c.nodes, c.snaps[k]) && GoodNode(c.nodes, c.snaps[k].server);
    InstallSteady(s, a);
    if TakesSnap(s, a) {
      SnapTaken(h, s, a);
    } else {
      SnapNotTaken(s, a);
      SameLogPath(h, s, HandleInstall(s, a).node);
    }
  }

  lemma CompactedPath(h: Past, s: Node, index: int, data: Image)
    requires PastInv(h) && NodePath(h, s) && Sound(s)
    ensures NodePath(h, Compact(s, index, data)) && Whole(h, Compact(s, index, data)) == Whole(h, s)
  {
    CompactPath(s, Whole(h, s), index, data);
    CompactSteady(s, index, data);
    if s.snapIndex < index <= s.commitIndex {
      assert s.logs[index - s.snapIndex - 1] == Whole(h, s)[index - 1];
      assert OnPath(h.paths, Whole(h, s), index - 1);
    }
    WholeIs(h, Compact(s, index, data), Whole(h, s));
  }

  lemma Compacted(c: State, a: Action)
    requires Structured(c) && Enabled(c, a) && a.TakeSnapshot?
    ensures Sound(c.nodes[a.i]) && Step(c, a).nodes == c.nodes[a.i := Compact(c.nodes[a.i], a.index, a.data)]
  {
    assert GoodNode(c.nodes, a.i);
  }

  lemma CompactorPath(c: State, h: Past, a: Action, t: Node)
    requires HistoryOf(c, h) && Enabled(c, a) && a.TakeSnapshot?
    requires Sound(c.nodes[a.i]) && t == Compact(c.nodes[a.i], a.index, a.data)
    ensures NodePath(h, t) && Whole(h, t) == Whole(h, c.nodes[a.i])
  {
    assert NodePath(h, c.nodes[a.i]);
    CompactedPath(h, c.nodes[a.i], a.index, a.data);
  }

  lemma QuietPath(c: State, h: Past, a: Action, i: nat)
    requires Structured(c) && PastInv(h) && Enabled(c, a) && !WritesLog(a) && !a.HearVote?
    requires i == Actor(c, a) && i < |c.nodes| && NodePath(h, c.nodes[i])
    ensures NodePath(h, Step(c, a).nodes[i]) && Whole(h, Step(c, a).nodes[i]) == Whole(h, c.nodes[i])
  {
    assert GoodNode(c.nodes, i);
    ActorGrows(c, a);
    LogUntouched(c, a, i);
    SameLogPath(h, c.nodes[i], Step(c, a).nodes[i]);
  }

  lemma SubmitterPath(c: State, h: Past, i: nat, command: Command)
    requires Structured(c) && PastInv(h) && Enabled(c, Submit(i, command)) && NodePath(h, c.nodes[i])
    ensures NodePath(Advance(c, h, Submit(i, command)), StepSubmit(c, i, command).nodes[i])
    ensures Whole(Advance(c, h, Submit(i, command)), StepSubmit(c, i, command).nodes[i])
        == WholeAfter(c, h, Submit(i, command))
  {
    StarterPath(c, h, i, command);
    Submitted(c, h, i, command);
  }

  lemma TakerPath(c: State, h: Past, a: Action, i: nat)
    requires Structured(c) && PastInv(h) && Enabled(c, a) && Clean(c, a) && i == Actor(c, a) && i < |c.nodes|
    requires NodePath(h, c.nodes[i]) && NodeAnchored(h, c.nodes[i])
    requires (a.AnswerAppend? && BeatPath(h, c.beats[a.b])) || (a.AnswerSnap? && SnapPath(h, c.snaps[a.k]))
    ensures NodePath(h, Step(c, a).nodes[i]) && Whole(h, Step(c, a).nodes[i]) == WholeAfter(c, h, a)
  {
    if a.AnswerAppend? { AnswererPath(c, h, a.b, a.s); } else { InstallerPath(c, h, a.k); }
  }

  lemma ActorPath(c: State, h: Past, a: Action, i: nat)
    requires HistoryOf(c, h) && Anchored(c, h) && Enabled(c, a) && Clean(c, a) && i == Actor(c, a) && i < |c.nodes|
    ensures NodePath(Advance(c, h, a), Step(c, a).nodes[i])
    ensures Whole(Advance(c, h, a), Step(c, a).nodes[i]) == WholeAfter(c, h, a)
  {
    assert NodePath(h, c.nodes[i]) && NodeAnchored(h, c.nodes[i]);
    assert a.AnswerAppend? ==> BeatPath(h, c.beats[a.b]);
    assert a.AnswerSnap? ==> SnapPath(h, c.snaps[a.k]);
    if a.HearVote? { WinnerPath(c, h, a.e, a.s); }
    else if a.Submit? { SubmitterPath(c, h, a.i, a.command); }
    else if a.AnswerAppend? || a.AnswerSnap? { TakerPath(c, h, a, i); }
    else if a.TakeSnapshot? {
      Compacted(c, a);
      CompactorPath(c, h, a, Step(c, a).nodes[i]);
    }
    else { QuietPath(c, h, a, i); }
  }

  lemma OneLeader(c: State, i: nat, j: nat)
    requires SafeSoFar(c) && i < |c.nodes| && j < |c.nodes| && i != j
    requires c.nodes[i].status == Leader && c.nodes[j].status == Leader
    ensures c.nodes[i].term != c.nodes[j].term
  {
    if c.nodes[i].term == c.nodes[j].term { OneElected(c, i, j, c.nodes[j].term); }
  }

  lemma HeardElsewhere(c: State, h: Past, e: nat, s: nat, term: int)
    requires HistoryOf(c, h) && Enabled(c, HearVote(e, s)) && term in h.leads
    ensures term in Advance(c, h, HearVote(e, s)).leads
    ensures Advance(c, h, HearVote(e, s)).leads[term].log == h.leads[term].log
  {
    if StepHearVote(c, e, s).elections[e].wins > c.elections[e].wins { WinFresh(c, h, e, s); }
  }

  /** No other leader's log is touched. */
  lemma OtherLeader(c: State, h: Past, a: Action, j: nat)
    requires HistoryOf(c, h) && Enabled(c, a) && j < |c.nodes| && j != Actor(c, a) && c.nodes[j].status == Leader
    ensures var term := c.nodes[j].term;
            term in h.leads && term in Advance(c, h, a).leads && Advance(c, h, a).leads[term].log == h.leads[term].log
  {
    assert NodePath(h, c.nodes[j]);
    if a.Submit? { OneLeader(c, a.i, j); }
    if a.HearVote? { HeardElsewhere(c, h, a.e, a.s, c.nodes[j].term); }
  }

  lemma OtherPath(c: State, h: Past, a: Action, j: nat)
    requires HistoryOf(c, h) && Enabled(c, a) && j < |c.nodes| && j != Actor(c, a)
    requires PastInv(Advance(c, h, a)) && PastExtends(h, Advance(c, h, a))
    ensures NodePath(Advance(c, h, a), c.nodes[j]) && Whole(Advance(c, h, a), c.nodes[j]) == Whole(h, c.nodes[j])
  {
    assert NodePath(h, c.nodes[j]) && GoodNode(c.nodes, j);
    if c.nodes[j].status == Leader { OtherLeader(c, h, a, j); }
    WholeExtends(h, Advance(c, h, a), c.nodes[j]);
  }

  // ---------------------------------------------------------- messages keep it

  lemma TermOnWhole(s: Node, f: seq<Entry>, i: int)
    requires Sound(s) && IsTail(s, f) && s.snapIndex <= i <= Top(s) && (i == s.snapIndex ==> Seam(s, f))
    requires s.snapIndex == 0 ==> s.snapTerm == 0
    ensures TermAt(s, i) == if i == 0 then 0 else f[i - 1].term
  {
    if i > s.snapIndex { assert s.logs[i - s.snapIndex - 1] == f[i - 1]; }
  }

  lemma BuildPart(s: Node, f: seq<Entry>, k: nat)
    requires Sound(s) && IsTail(s, f) && Seam(s, f) && (s.snapIndex == 0 ==> s.snapTerm == 0)
    requires k < s.peers && s.snapIndex < s.nextIndex[k] <= Top(s) + 1
    ensures PartOf(f, BuildAppend(s, k))
  {
    var a := BuildAppend(s, k);
    TermOnWhole(s, f, a.prevLogIndex);
    forall j | 0 <= j < |a.entries| ensures a.entries[j] == f[a.prevLogIndex + j] {
      assert a.entries[j] == s.logs[a.prevLogIndex - s.snapIndex + j];
    }
  }

  lemma BuiltPart(s: Node, f: seq<Entry>, k: nat)
    requires Sound(s) && CanBeat(s) && IsTail(s, f) && Seam(s, f) && (s.snapIndex == 0 ==> s.snapTerm == 0)
    requires k < s.peers && HasArgs(NewBeat(s).calls[k])
    ensures PartOf(f, NewBeat(s).calls[k].args) && NewBeat(s).calls[k].args.term == s.term
  {
    assert NewBeat(s).calls[k] == CallFor(DispatchTo(s, k));
    BuildPart(s, f, k);
  }

  lemma NewBeatPath(h: Past, s: Node)
    requires Sound(s) && CanBeat(s) && s.status == Leader && NodePath(h, s) && NodeAnchored(h, s)
    ensures BeatPath(h, NewBeat(s))
  {
    var b, f := NewBeat(s), Whole(h, s);
    LastIndexSound(s);
    TermOnWhole(s, f, Top(s));
    forall k | 0 <= k < |b.calls| && HasArgs(b.calls[k]) ensures ArgsPath(h, b.calls[k].args) {
      BuiltPart(s, f, k);
    }
  }

  lemma SameRoundPath(h: Past, b: Beat, b': Beat)
    requires BeatPath(h, b) && SameRound(b, b')
    ensures BeatPath(h, b')
  {}

  lemma OldBeatPath(c: State, h: Past, a: Action, h': Past, b: nat)
    requires Structured(c) && Enabled(c, a) && b < |c.beats| && BeatPath(h, c.beats[b]) && PastExtends(h, h')
    ensures b < |Step(c, a).beats| && BeatPath(h', Step(c, a).beats[b])
  {
    RoundsLast(c, a, b);
    SameRoundPath(h, c.beats[b], Step(c, a).beats[b]);
    BeatExtends(h, h', Step(c, a).beats[b]);
  }

  lemma AddedBeatPath(c: State, h: Past, i: nat, h': Past)
    requires Structured(c) && Enabled(c, DoHeartBeat(i)) && PastExtends(h, h')
    requires NodePath(h, c.nodes[i]) && NodeAnchored(h, c.nodes[i])
    ensures GoodNode(c.nodes, i) && BeatPath(h', NewBeat(c.nodes[i]))
  {
    assert GoodNode(c.nodes, i);
    NewBeatPath(h, c.nodes[i]);
    BeatExtends(h, h', NewBeat(c.nodes[i]));
  }

  lemma BeatPathKept(c: State, h: Past, a: Action, h': Past, b: nat)
    requires Structured(c) && PathInv(c, h) && Anchored(c, h) && Enabled(c, a) && b < |Step(c, a).beats|
    requires PastExtends(h, h')
    ensures BeatPath(h', Step(c, a).beats[b])
  {
    if b < |c.beats| {
      OldBeatPath(c, h, a, h', b);
    } else {
      AddedBeatPath(c, h, a.i, h');
    }
  }

  lemma EndIsPath(h: Past, s: Node)
    requires Sound(s) && NodePath(h, s)
    ensures IsPath(h, LastTerm(s), Top(s))
  {
    var f := Whole(h, s);
    if s.logs != [] {
      EndOf(s, f);
      assert OnPath(h.paths, f, |f| - 1);
    }
  }

  lemma SnapPathKept(c: State, h: Past, a: Action, h': Past, k: nat)
    requires Structured(c) && PathInv(c, h) && Enabled(c, a) && k < |Step(c, a).snaps| && PastExtends(h, h')
    ensures SnapPath(h', Step(c, a).snaps[k])
  {
    assert k < |c.snaps| ==> SnapPath(h, c.snaps[k]);
    if a.BuildSnap? && a.k == k {
      assert NodePath(h, c.nodes[c.snaps[k].leader]);
    } else if a.DoHeartBeat? {
      assert GoodNode(c.nodes, a.i);
    }
  }

  lemma AskedPath(h: Past, s: Node)
    requires Sound(s) && NodePath(h, s) && s.status != Leader
    ensures VotePath(h, NewElection(Elect(s), s.peers))
  {
    LastIndexSound(s);
    EndIsPath(h, s);
  }

  lemma VotePathKept(c: State, h: Past, a: Action, h': Past, e: nat)
    requires Structured(c) && PathInv(c, h) && Enabled(c, a) && e < |Step(c, a).elections| && PastExtends(h, h')
    ensures VotePath(h', Step(c, a).elections[e])
  {
    if e < |c.elections| {
      assert VotePath(h, c.elections[e]);
      StepExtends(c, a);
    } else {
      assert NodePath(h, c.nodes[a.i]) && GoodNode(c.nodes, a.i);
      AskedPath(h, c.nodes[a.i]);
    }
  }

  lemma LeadElectedKept(c: State, h: Past, a: Action, term: int)
    requires HistoryOf(c, h) && Enabled(c, a) && term in Advance(c, h, a).leads
    ensures LeadElected(Step(c, a).elections, term)
  {
    StepExtends(c, a);
    if term in h.leads {
      assert LeadElected(c.elections, term);
      var l: nat :| Elected(c.elections, l, term);
      ElectedExtends(c.elections, Step(c, a).elections, l, term);
    } else {
      assert a.HearVote?;
      var el' := Step(c, a).elections[a.e];
      assert Elected(Step(c, a).elections, el'.candidate, term);
    }
  }

  lemma PathKept(c: State, h: Past, a: Action)
    requires HistoryOf(c, h) && Anchored(c, h) && Enabled(c, a) && Clean(c, a)
    ensures PathInv(Step(c, a), Advance(c, h, a)) && PastExtends(h, Advance(c, h, a))
  {
    var d, h' := Step(c, a), Advance(c, h, a);
    ActorOnly(c, a);
    HistoryGrows(c, h, a);
    ActorPath(c, h, a, Actor(c, a));
    forall j | 0 <= j < |d.nodes| ensures NodePath(h', d.nodes[j]) {
      if j != Actor(c, a) { OtherPath(c, h, a, j); }
    }
    forall b | 0 <= b < |d.beats| ensures BeatPath(h', d.beats[b]) { BeatPathKept(c, h, a, h', b); }
    forall k | 0 <= k < |d.snaps| ensures SnapPath(h', d.snaps[k]) { SnapPathKept(c, h, a, h', k); }
    forall e | 0 <= e < |d.elections| ensures VotePath(h', d.elections[e]) { VotePathKept(c, h, a, h', e); }
    forall term | term in h'.leads ensures LeadElected(d.elections, term) { LeadElectedKept(c, h, a, term); }
  }
}
