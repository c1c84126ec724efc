/** The whole system in the runs in which Raft is safe. All servers run commands of one sequence; what that
    makes of a server, with and without installed snapshots. */
module Replicas {
  import opened KvTypes
  import opened RaftNode
  import opened Cluster
  import opened EntryIdentity
  import opened CommitQuorum
  import opened LogPaths
  import opened LeaderCompleteness
  import opened StateMachineSafety
  import opened KvStore
  import opened ApplyPipeline
  import opened ExactlyOnce
  import opened KeySets

  ghost predicate IsCleanTurn(s: System, t: System) {
    && Structured(s.cluster) && |s.pipes| == |s.cluster.nodes|
    && exists turn :: CanTurn(s, turn) && (turn.Net? ==> Clean(s.cluster, turn.action)) && t == Next(s, turn)
  }

  ghost predicate IsCleanSystemRun(n: nat, run: seq<System>) {
    && n >= 1 && |run| >= 1 && run[0] == InitSystem(n)
    && forall t :: 0 <= t < |run| - 1 ==> IsCleanTurn(run[t], run[t + 1])
  }

  // -------------------------------------------------------- what is decided

  /** The commands are those of the first entries that were committed. */
  ghost predicate Decided(c: State, h: Past, ops: seq<Op>) {
    ops == [] || exists k: nat {:trigger DecidedBy(c, h, ops, k)} :: DecidedBy(c, h, ops, k)
  }

  predicate DecidedBy(c: State, h: Past, ops: seq<Op>, k: nat) {
    && k < |c.commits| && c.commits[k].term in h.leads
    && |ops| <= c.commits[k].index <= |h.leads[c.commits[k].term].log|
    && forall i {:trigger ops[i]} :: 0 <= i < |ops| ==> ops[i] == h.leads[c.commits[k].term].log[i].command
  }

  lemma DecidedMore(c: State, h: Past, d: State, h': Past, ops: seq<Op>)
    requires Decided(c, h, ops) && CommitsStay(c.commits, d.commits) && PastExtends(h, h')
    ensures Decided(d, h', ops)
  {
    if ops != [] {
      var k: nat :| DecidedBy(c, h, ops, k);
      var u := c.commits[k].term;
      assert d.commits[k] == c.commits[k] && LeadExtends(h.leads[u], h'.leads[u], u);
      assert DecidedBy(d, h', ops, k);
    }
  }

  lemma DecidedPrefix(c: State, h: Past, ops: seq<Op>, front: seq<Op>)
    requires Decided(c, h, ops) && Begins(front, ops)
    ensures Decided(c, h, front)
  {
    if front != [] {
      var k: nat :| DecidedBy(c, h, ops, k);
      assert DecidedBy(c, h, front, k);
    }
  }

  lemma DecidedByAgree(c: State, h: Past, acks: set<Ack>, x: seq<Op>, k: nat, y: seq<Op>, k': nat, i: int)
    requires PastInv(h) && LeadsCover(c, h, acks) && RecordsGood(c, h, acks)
    requires DecidedBy(c, h, x, k) && DecidedBy(c, h, y, k') && c.commits[k].term <= c.commits[k'].term
    requires 0 <= i < |x| && i < |y|
    ensures x[i] == y[i]
  {
    var u, l := c.commits[k].term, h.leads[c.commits[k].term].log;
    assert CommittedBy(c, h, u, l, |x|, k);
    ByOnLead(c, h, acks, u, l, |x|, k, c.commits[k'].term);
  }

  /** Of two decided sequences the shorter one begins the other. */
  lemma DecidedAgree(c: State, h: Past, acks: set<Ack>, x: seq<Op>, y: seq<Op>)
    requires PastInv(h) && LeadsCover(c, h, acks) && RecordsGood(c, h, acks)
    requires Decided(c, h, x) && Decided(c, h, y) && |x| <= |y|
    ensures Begins(x, y)
  {
    forall i | 0 <= i < |x| ensures x[i] == y[i] {
      var k: nat :| DecidedBy(c, h, x, k);
      var k': nat :| DecidedBy(c, h, y, k');
      if c.commits[k].term <= c.commits[k'].term {
        DecidedByAgree(c, h, acks, x, k, y, k', i);
      } else {
        DecidedByAgree(c, h, acks, y, k', x, k, i);
      }
    }
  }

  function Commands(log: seq<Entry>, n: nat): seq<Op>
    requires n <= |log|
  {
    seq(n, i requires 0 <= i < n => log[i].command)
  }

  lemma CommittedDecided(c: State, h: Past, acks: set<Ack>, bound: int, log: seq<Entry>, n: nat)
    requires CommittedTo(c, h, bound, log, n) && RecordsGood(c, h, acks)
    ensures Decided(c, h, Commands(log, n))
  {
    if n > 0 {
      var k: nat :| CommittedBy(c, h, bound, log, n, k);
      assert RecordGood(h, acks, |c.nodes|, c.commits[k], k);
      assert DecidedBy(c, h, Commands(log, n), k);
    }
  }

  // ----------------------------------------------------------------- invariant

  /** The command is the decided one of that index. */
  ghost predicate Fixed(c: State, h: Past, index: int, command: Command) {
    exists ops: seq<Op> {:trigger Decided(c, h, ops)} ::
        Decided(c, h, ops) && |ops| == index >= 1 && ops[index - 1] == command
  }

  /** The server has handled n commands, or what stands for them. */
  ghost predicate KvRight(c: State, h: Past, k: Kv, n: int) {
    exists ops: seq<Op> {:trigger Decided(c, h, ops)} :: Decided(c, h, ops) && |ops| == n && KvIs(k, ops)
  }

  ghost predicate ImageRight(c: State, h: Past, data: Image, n: int) {
    n > 0 ==> exists ops: seq<Op> {:trigger Decided(c, h, ops)} ::
        Decided(c, h, ops) && |ops| == n && ImageIs(data, ops)
  }

  ghost predicate MsgRight(c: State, h: Past, m: ApplyMsg) {
    match m
    case CommandMsg(command, index) => Fixed(c, h, index, command)
    case SnapshotMsg(data, _, index) => ImageRight(c, h, data, index)
  }

  ghost predicate AllRight(c: State, h: Past, ms: seq<ApplyMsg>) {
    forall k {:trigger ms[k]} :: 0 <= k < |ms| ==> MsgRight(c, h, ms[k])
  }

  ghost predicate EventsFixed(c: State, h: Past, events: seq<Event>) {
    forall k {:trigger events[k]} :: 0 <= k < |events| && events[k].Ran? ==>
        Fixed(c, h, events[k].index, events[k].command)
  }

  function Done(p: Pipe): int {
    Max(p.ran, p.kv.snapAt)
  }

  /** What is on the way to a server, and what has arrived, is decided. */
  ghost predicate PipeRight(c: State, h: Past, p: Pipe) {
    && AllRight(c, h, p.queue) && AllRight(c, h, p.batch) && EventsFixed(c, h, p.events)
    && KvRight(c, h, p.kv, Done(p))
  }

  ghost predicate SnapRight(c: State, h: Past, k: SnapCall) {
    k.SnapPending? || k.SnapReplied? ==> ImageRight(c, h, k.args.data, k.args.lastIndex)
  }

  ghost predicate ImagesRight(c: State, h: Past) {
    && (forall i {:trigger c.nodes[i]} :: 0 <= i < |c.nodes| ==>
        ImageRight(c, h, c.nodes[i].snapshot, c.nodes[i].snapIndex))
    && (forall k {:trigger SnapRight(c, h, c.snaps[k])} :: 0 <= k < |c.snaps| ==> SnapRight(c, h, c.snaps[k]))
  }

  ghost predicate PipesRight(c: State, h: Past, pipes: seq<Pipe>) {
    forall i {:trigger PipeRight(c, h, pipes[i])} :: 0 <= i < |pipes| ==> PipeRight(c, h, pipes[i])
  }

  ghost predicate ReplicaInv(s: System, h: Past, acks: set<Ack>) {
    && SystemInv(s) && RaftInv(s.cluster, h, acks) && QuorumInv(s.cluster)
    && PipesRight(s.cluster, h, s.pipes) && ImagesRight(s.cluster, h)
  }

  // ------------------------------------------------------- later states keep it

  lemma FixedMore(c: State, h: Past, d: State, h': Past, index: int, command: Command)
    requires Fixed(c, h, index, command) && Later(c, h, d, h')
    ensures Fixed(d, h', index, command)
  {
    var ops: seq<Op> :| Decided(c, h, ops) && |ops| == index >= 1 && ops[index - 1] == command;
    DecidedMore(c, h, d, h', ops);
  }

  lemma ImageMore(c: State, h: Past, d: State, h': Past, data: Image, n: int)
    requires ImageRight(c, h, data, n) && Later(c, h, d, h')
    ensures ImageRight(d, h', data, n)
  {
    if n > 0 {
      var ops: seq<Op> :| Decided(c, h, ops) && |ops| == n && ImageIs(data, ops);
      DecidedMore(c, h, d, h', ops);
    }
  }

  lemma KvMore(c: State, h: Past, d: State, h': Past, k: Kv, n: int)
    requires KvRight(c, h, k, n) && Later(c, h, d, h')
    ensures KvRight(d, h', k, n)
  {
    var ops: seq<Op> :| Decided(c, h, ops) && |ops| == n && KvIs(k, ops);
    DecidedMore(c, h, d, h', ops);
  }

  lemma MsgMore(c: State, h: Past, d: State, h': Past, m: ApplyMsg)
    requires MsgRight(c, h, m) && Later(c, h, d, h')
    ensures MsgRight(d, h', m)
  {
    match m
    case CommandMsg(command, index) => FixedMore(c, h, d, h', index, command);
    case SnapshotMsg(data, _, index) => ImageMore(c, h, d, h', data, index);
  }

  lemma AllMore(c: State, h: Past, d: State, h': Past, ms: seq<ApplyMsg>)
    requires AllRight(c, h, ms) && Later(c, h, d, h')
    ensures AllRight(d, h', ms)
  {
    forall k | 0 <= k < |ms| ensures MsgRight(d, h', ms[k]) {
      MsgMore(c, h, d, h', ms[k]);
    }
  }

  lemma EventsMore(c: State, h: Past, d: State, h': Past, events: seq<Event>)
    requires EventsFixed(c, h, events) && Later(c, h, d, h')
    ensures EventsFixed(d, h', events)
  {
    forall k | 0 <= k < |events| && events[k].Ran? ensures Fixed(d, h', events[k].index, events[k].command) {
      FixedMore(c, h, d, h', events[k].index, events[k].command);
    }
  }

  lemma PipeMore(c: State, h: Past, d: State, h': Past, p: Pipe)
    requires PipeRight(c, h, p) && Later(c, h, d, h')
    ensures PipeRight(d, h', p)
  {
    AllMore(c, h, d, h', p.queue);
    AllMore(c, h, d, h', p.batch);
    EventsMore(c, h, d, h', p.events);
    KvMore(c, h, d, h', p.kv, Done(p));
  }

  // ------------------------------------------------------------ every turn keeps it

  /** What the applier collects is decided. */
  lemma CollectedRight(c: State, h: Past, acks: set<Ack>, s: Node)
    requires Sound(s) && NodePath(h, s) && NodeCommitted(c, h, s) && RecordsGood(c, h, acks)
    ensures AllRight(c, h, ApplyLogs(s))
  {
    var f := Whole(h, s);
    forall k | 0 <= k < |ApplyLogs(s)| ensures MsgRight(c, h, ApplyLogs(s)[k]) {
      var index := s.lastApplied + 1 + k;
      EntryOnWhole(h, s, index);
      CommittedDecided(c, h, acks, s.term, f, s.commitIndex);
      DecidedPrefix(c, h, Commands(f, s.commitIndex), Commands(f, index));
      assert Commands(f, index)[index - 1] == f[index - 1].command;
    }
  }

  lemma PushRight(c: State, h: Past, p: Pipe)
    requires PipeRight(c, h, p) && p.batch != []
    ensures PipeRight(c, h, Pushes(p))
  {
    var q := Pushes(p);
    forall k | 0 <= k < |q.queue| ensures MsgRight(c, h, q.queue[k]) {
      assert q.queue[k] == if k < |p.queue| then p.queue[k] else p.batch[0];
    }
    forall k | 0 <= k < |q.batch| ensures MsgRight(c, h, q.batch[k]) {
      assert q.batch[k] == p.batch[k + 1];
    }
  }

  /** The next command. */
  lemma RanRight(c: State, h: Past, acks: set<Ack>, k: Kv, n: int, command: Op)
    requires PastInv(h) && LeadsCover(c, h, acks) && RecordsGood(c, h, acks)
    requires KvRight(c, h, k, n) && Fixed(c, h, n + 1, command) && k.snapAt <= n
    ensures KvRight(c, h, HandleCommand(k, n + 1, command), n + 1)
  {
    var ops: seq<Op> :| Decided(c, h, ops) && |ops| == n && KvIs(k, ops);
    NextDecided(c, h, acks, ops, command);
    CommandKeys(k, ops, n + 1, command);
  }

  lemma NextDecided(c: State, h: Past, acks: set<Ack>, ops: seq<Op>, command: Op)
    requires PastInv(h) && LeadsCover(c, h, acks) && RecordsGood(c, h, acks)
    requires Decided(c, h, ops) && Fixed(c, h, |ops| + 1, command)
    ensures Decided(c, h, ops + [command])
  {
    var all: seq<Op> :| Decided(c, h, all) && |all| == |ops| + 1 && all[|ops|] == command;
    DecidedAgree(c, h, acks, ops, all);
    assert all == ops + [command];
  }

  lemma LoadedRight(c: State, h: Past, acks: set<Ack>, k: Kv, n: int, data: Image, index: int)
    requires PastInv(h) && LeadsCover(c, h, acks) && RecordsGood(c, h, acks)
    requires KvRight(c, h, k, n) && ImageRight(c, h, data, index) && index > 0
    ensures KvRight(c, h, HandleSnapshot(k, data, index), Max(n, index))
  {
    var x: seq<Op> :| Decided(c, h, x) && |x| == n && KvIs(k, x);
    var y: seq<Op> :| Decided(c, h, y) && |y| == index && ImageIs(data, y);
    if n <= index {
      DecidedAgree(c, h, acks, x, y);
      SnapshotKeys(k, x, data, index, y, y);
    } else {
      DecidedAgree(c, h, acks, y, x);
      SnapshotKeys(k, x, data, index, y, x);
    }
  }

  /** Where the server is after a message. */
  lemma ConsumeDone(s: Node, p: Pipe)
    requires PipeInv(s, p) && p.queue != []
    ensures var m, q := p.queue[0], Consumes(p);
            && (m.SnapshotMsg? ==> m.index > 0 && Done(q) == Max(Done(p), m.index))
            && (m.CommandMsg? && m.index > p.kv.snapAt ==> m.index == Done(p) + 1 == Done(q))
            && (m.CommandMsg? && m.index <= p.kv.snapAt ==> Done(q) == Done(p))
  {
    var m, ms := p.queue[0], p.queue + p.batch;
    DeliverSnapAt(p.kv, m);
    assert ms[0] == m && InFlow(s.lastApplied, s.snapIndex, p.ran, p.kv.snapAt, ms[0]);
    if m.CommandMsg? { assert Within(Done(p), ms, 0, m.index - 1); }
  }

  lemma ConsumedKv(c: State, h: Past, acks: set<Ack>, s: Node, p: Pipe)
    requires PastInv(h) && LeadsCover(c, h, acks) && RecordsGood(c, h, acks)
    requires PipeInv(s, p) && p.queue != [] && KvRight(c, h, p.kv, Done(p)) && MsgRight(c, h, p.queue[0])
    ensures KvRight(c, h, Consumes(p).kv, Done(Consumes(p)))
  {
    ConsumeDone(s, p);
    match p.queue[0]
    case CommandMsg(command, index) =>
      if index > p.kv.snapAt { RanRight(c, h, acks, p.kv, Done(p), command); }
    case SnapshotMsg(data, _, index) =>
      LoadedRight(c, h, acks, p.kv, Done(p), data, index);
  }

  lemma ConsumeRight(c: State, h: Past, acks: set<Ack>, s: Node, p: Pipe)
    requires PastInv(h) && LeadsCover(c, h, acks) && RecordsGood(c, h, acks)
    requires PipeInv(s, p) && PipeRight(c, h, p) && p.queue != []
    ensures PipeRight(c, h, Consumes(p))
  {
    var q := Consumes(p);
    assert MsgRight(c, h, p.queue[0]);
    ConsumedKv(c, h, acks, s, p);
    forall k | 0 <= k < |q.queue| ensures MsgRight(c, h, q.queue[k]) {
      assert q.queue[k] == p.queue[k + 1];
    }
    forall k | 0 <= k < |q.events| && q.events[k].Ran? ensures Fixed(c, h, q.events[k].index, q.events[k].command) {
      assert k < |p.events| ==> q.events[k] == p.events[k];
    }
  }

  lemma ClientRight(c: State, h: Past, p: Pipe, waiting: map<int, seq<Op>>)
    requires PipeRight(c, h, p)
    ensures PipeRight(c, h, Visited(p, waiting))
  {
    var ops: seq<Op> :| Decided(c, h, ops) && |ops| == Done(p) && KvIs(p.kv, ops);
    assert KvIs(Visited(p, waiting).kv, ops);
  }

  // ------------------------------------------------- images on their way

  lemma LastIsHighest(events: seq<Event>, j: int)
    requires InOrder(events) && events != [] && events[|events| - 1].Ran? && j > events[|events| - 1].index
    ensures !Covered(events, |events|, j)
  {
    forall e | 0 <= e < |events| ensures events[e].index <= events[|events| - 1].index {}
  }

  /** A server that has just run a command has handled no more than that. */
  lemma JustRan(s: Node, p: Pipe, index: int, data: Image)
    requires PipeInv(s, p) && SnapshotDue(p, index, data)
    ensures Done(p) == index
  {
    if p.kv.snapAt > p.ran { LastIsHighest(p.events, p.kv.snapAt); }
  }

  /** The snapshot that a server asks for is right for the index. */
  lemma TakenRight(c: State, h: Past, s: Node, p: Pipe, index: int, data: Image)
    requires PipeInv(s, p) && SnapshotDue(p, index, data) && KvRight(c, h, p.kv, Done(p))
    ensures ImageRight(c, h, data, index)
  {
    JustRan(s, p, index, data);
    var ops: seq<Op> :| Decided(c, h, ops) && |ops| == Done(p) && KvIs(p.kv, ops);
    ImageKeysOf(p.kv, ops, data);
  }

  lemma ActorImage(s: System, h: Past, a: Action, i: nat)
    requires SystemInv(s) && CanTurn(s, Net(a)) && i == Actor(s.cluster, a) && i < |s.pipes|
    requires ImagesRight(s.cluster, h) && PipesRight(s.cluster, h, s.pipes)
    ensures ImageRight(s.cluster, h, Step(s.cluster, a).nodes[i].snapshot, Step(s.cluster, a).nodes[i].snapIndex)
  {
    var c := s.cluster;
    assert ImageRight(c, h, c.nodes[i].snapshot, c.nodes[i].snapIndex) && GoodNode(c.nodes, i);
    if a.TakeSnapshot? {
      assert PipeInv(c.nodes[i], s.pipes[i]) && PipeRight(c, h, s.pipes[i]);
      TakenRight(c, h, c.nodes[i], s.pipes[i], a.index, a.data);
    } else if a.AnswerSnap? {
      assert SnapRight(c, h, c.snaps[a.k]) && GoodSnap(c.nodes, c.snaps[a.k]);
    } else {
      SameSnapshot(c, a, i);
    }
  }

  lemma SameSnapshot(c: State, a: Action, i: nat)
    requires Structured(c) && Enabled(c, a) && !a.TakeSnapshot? && !a.AnswerSnap? && i == Actor(c, a) && i < |c.nodes|
    ensures Step(c, a).nodes[i].snapshot == c.nodes[i].snapshot && Step(c, a).nodes[i].snapIndex == c.nodes[i].snapIndex
  {
    if !WritesLog(a) {
      LogUntouched(c, a, i);
    } else if a.AnswerAppend? {
      assert GoodBeat(c.nodes, c.beats[a.b]) && GoodCall(c.beats[a.b], c.beats[a.b].calls[a.s]) && GoodNode(c.nodes, i);
    }
  }

  lemma SnapCallRight(c: State, h: Past, a: Action, k: nat)
    requires Structured(c) && Enabled(c, a) && k < |Step(c, a).snaps| && ImagesRight(c, h)
    ensures SnapRight(c, h, Step(c, a).snaps[k])
  {
    if a.BuildSnap? && a.k == k {
      var i := c.snaps[k].leader;
      assert ImageRight(c, h, c.nodes[i].snapshot, c.nodes[i].snapIndex);
    } else {
      OldSnap(c, a, k);
      if k < |c.snaps| { assert SnapRight(c, h, c.snaps[k]); }
    }
  }

  lemma ImagesKept(s: System, h: Past, a: Action, h': Past)
    requires SystemInv(s) && CanTurn(s, Net(a)) && Later(s.cluster, h, Step(s.cluster, a), h')
    requires ImagesRight(s.cluster, h) && PipesRight(s.cluster, h, s.pipes)
    ensures ImagesRight(Step(s.cluster, a), h')
  {
    var c, d := s.cluster, Step(s.cluster, a);
    ActorOnly(c, a);
    forall i | 0 <= i < |d.nodes| ensures ImageRight(d, h', d.nodes[i].snapshot, d.nodes[i].snapIndex) {
      if i == Actor(c, a) { ActorImage(s, h, a, i); } else { assert d.nodes[i] == c.nodes[i]; }
      ImageMore(c, h, d, h', d.nodes[i].snapshot, d.nodes[i].snapIndex);
    }
    forall k | 0 <= k < |d.snaps| ensures SnapRight(d, h', d.snaps[k]) {
      SnapCallRight(c, h, a, k);
      if d.snaps[k].SnapPending? || d.snaps[k].SnapReplied? {
        ImageMore(c, h, d, h', d.snaps[k].args.data, d.snaps[k].args.lastIndex);
      }
    }
  }

  // --------------------------------------------------------------- actions

  lemma NetPipeRight(s: System, h: Past, acks: set<Ack>, a: Action, i: nat)
    requires Structured(s.cluster) && |s.pipes| == |s.cluster.nodes| && RaftInv(s.cluster, h, acks)
    requires PipesRight(s.cluster, h, s.pipes) && ImagesRight(s.cluster, h) && CanTurn(s, Net(a)) && i < |s.pipes|
    ensures PipeRight(s.cluster, h, NetPipes(s, a)[i])
  {
    var c, p := s.cluster, s.pipes[i];
    assert PipeRight(c, h, p);
    if a.Apply? && a.i == i {
      NodeFacts(c, h, acks, i);
      CollectedRight(c, h, acks, c.nodes[i]);
    } else if a.AnswerSnap? && c.snaps[a.k].server == i {
      PushedRight(c, h, a.k);
      AppendedRight(c, h, p.queue, Pushed(c, a.k));
    }
  }

  lemma PushedRight(c: State, h: Past, k: nat)
    requires Structured(c) && Enabled(c, AnswerSnap(k)) && ImagesRight(c, h)
    ensures AllRight(c, h, Pushed(c, k))
  {
    assert SnapRight(c, h, c.snaps[k]) && GoodSnap(c.nodes, c.snaps[k]) && GoodNode(c.nodes, c.snaps[k].server);
  }

  lemma AppendedRight(c: State, h: Past, ms: seq<ApplyMsg>, more: seq<ApplyMsg>)
    requires AllRight(c, h, ms) && AllRight(c, h, more)
    ensures AllRight(c, h, ms + more)
  {
    forall k | 0 <= k < |ms + more| ensures MsgRight(c, h, (ms + more)[k]) {
      assert (ms + more)[k] == if k < |ms| then ms[k] else more[k - |ms|];
    }
  }

  lemma NetRight(s: System, h: Past, acks: set<Ack>, a: Action, d: State, h': Past)
    requires Structured(s.cluster) && |s.pipes| == |s.cluster.nodes| && RaftInv(s.cluster, h, acks)
    requires PipesRight(s.cluster, h, s.pipes) && ImagesRight(s.cluster, h) && CanTurn(s, Net(a))
    requires Later(s.cluster, h, d, h')
    ensures PipesRight(d, h', NetPipes(s, a))
  {
    forall i | 0 <= i < |s.pipes| ensures PipeRight(d, h', NetPipes(s, a)[i]) {
      NetPipeRight(s, h, acks, a, i);
      PipeMore(s.cluster, h, d, h', NetPipes(s, a)[i]);
    }
  }

  lemma NetReplicas(s: System, h: Past, acks: set<Ack>, a: Action)
    requires ReplicaInv(s, h, acks) && CanTurn(s, Net(a)) && Clean(s.cluster, a)
    ensures ReplicaInv(Next(s, Net(a)), Advance(s.cluster, h, a), AdvanceAcks(s.cluster, acks, a))
  {
    TurnKeeps(s, Net(a));
    RaftInvKept(s.cluster, h, acks, a);
    ImagesKept(s, h, a, Advance(s.cluster, h, a));
    NetRight(s, h, acks, a, Step(s.cluster, a), Advance(s.cluster, h, a));
  }

  /** One server takes a turn; the cluster stays. */
  lemma PipeReplicas(s: System, h: Past, acks: set<Ack>, turn: Turn, i: nat, q: Pipe)
    requires ReplicaInv(s, h, acks) && CanTurn(s, turn) && !turn.Net? && i < |s.pipes|
    requires Next(s, turn) == s.(pipes := s.pipes[i := q]) && PipeRight(s.cluster, h, q)
    ensures ReplicaInv(Next(s, turn), h, acks)
  {
    TurnKeeps(s, turn);
    OnePipeRight(s.cluster, h, s.pipes, i, q);
  }

  lemma OnePipeRight(c: State, h: Past, pipes: seq<Pipe>, i: nat, q: Pipe)
    requires PipesRight(c, h, pipes) && i < |pipes| && PipeRight(c, h, q)
    ensures PipesRight(c, h, pipes[i := q])
  {
    var after := pipes[i := q];
    forall j | 0 <= j < |after| ensures PipeRight(c, h, after[j]) {
      assert PipeRight(c, h, pipes[j]);
    }
  }

  lemma ServerReplicas(s: System, h: Past, acks: set<Ack>, turn: Turn)
    requires ReplicaInv(s, h, acks) && CanTurn(s, turn) && !turn.Net?
    ensures ReplicaInv(Next(s, turn), h, acks)
  {
    var i := turn.i;
    assert PipeRight(s.cluster, h, s.pipes[i]) && PipeInv(s.cluster.nodes[i], s.pipes[i]);
    match turn
    case Push(_) =>
      PushRight(s.cluster, h, s.pipes[i]);
      PipeReplicas(s, h, acks, turn, i, Pushes(s.pipes[i]));
    case Consume(_) =>
      ConsumeRight(s.cluster, h, acks, s.cluster.nodes[i], s.pipes[i]);
      PipeReplicas(s, h, acks, turn, i, Consumes(s.pipes[i]));
    case Client(_, waiting) =>
      ClientRight(s.cluster, h, s.pipes[i], waiting);
      PipeReplicas(s, h, acks, turn, i, Visited(s.pipes[i], waiting));
  }

  lemma CleanTurnRight(s: System, g: Past, acks: set<Ack>, t: System) returns (h: Past, more: set<Ack>)
    requires ReplicaInv(s, g, acks) && IsCleanTurn(s, t)
    ensures ReplicaInv(t, h, more)
  {
    var turn :| CanTurn(s, turn) && (turn.Net? ==> Clean(s.cluster, turn.action)) && t == Next(s, turn);
    if turn.Net? {
      NetReplicas(s, g, acks, turn.action);
      h, more := Advance(s.cluster, g, turn.action), AdvanceAcks(s.cluster, acks, turn.action);
    } else {
      ServerReplicas(s, g, acks, turn);
      h, more := g, acks;
    }
  }

  lemma StartRight(n: nat)
    requires n >= 1
    ensures ReplicaInv(InitSystem(n), Past(map[], map[]), {})
  {
    var c, h := Init(n), Past(map[], map[]);
    StartInv(n);
    StartRaft(n);
    assert Decided(c, h, []) && KvIs(EMPTY_PIPE.kv, []);
  }

  lemma CleanSystemIsRun(n: nat, run: seq<System>)
    requires IsCleanSystemRun(n, run)
    ensures IsSystemRun(n, run)
  {
    forall t | 0 <= t < |run| - 1 ensures IsTurn(run[t], run[t + 1]) {
      assert IsCleanTurn(run[t], run[t + 1]);
    }
  }

  lemma {:induction false} RunRight(n: nat, run: seq<System>, t: nat) returns (h: Past, acks: set<Ack>)
    requires IsCleanSystemRun(n, run) && t < |run|
    ensures ReplicaInv(run[t], h, acks)
    decreases t
  {
    if t == 0 {
      StartRight(n);
      h, acks := Past(map[], map[]), {};
    } else {
      h, acks := RunRight(n, run, t - 1);
      assert IsCleanTurn(run[t - 1], run[t - 1 + 1]);
      h, acks := CleanTurnRight(run[t - 1], h, acks, run[t]);
    }
  }

  // ----------------------------------------------------------------- theorems

  lemma FixedAt(c: State, h: Past, acks: set<Ack>, ops: seq<Op>, index: int, command: Command)
    requires PastInv(h) && LeadsCover(c, h, acks) && RecordsGood(c, h, acks)
    requires Decided(c, h, ops) && Fixed(c, h, index, command) && index <= |ops|
    ensures ops[index - 1] == command
  {
    var some: seq<Op> :| Decided(c, h, some) && |some| == index >= 1 && some[index - 1] == command;
    DecidedAgree(c, h, acks, some, ops);
  }

  lemma FixedAgree(c: State, h: Past, acks: set<Ack>, index: int, x: Command, y: Command)
    requires PastInv(h) && LeadsCover(c, h, acks) && RecordsGood(c, h, acks)
    requires Fixed(c, h, index, x) && Fixed(c, h, index, y)
    ensures x == y
  {
    var ops: seq<Op> :| Decided(c, h, ops) && |ops| == index >= 1 && ops[index - 1] == x;
    FixedAt(c, h, acks, ops, index, y);
  }

  /** No two servers ever run different commands at one index. */
  lemma SameCommands(n: nat, run: seq<System>, t: nat, i: nat, j: nat, e: nat, f: nat)
    requires IsCleanSystemRun(n, run) && t < |run| && i < |run[t].pipes| && j < |run[t].pipes|
    requires var x, y := run[t].pipes[i].events, run[t].pipes[j].events;
             e < |x| && f < |y| && x[e].Ran? && y[f].Ran? && x[e].index == y[f].index
    ensures run[t].pipes[i].events[e] == run[t].pipes[j].events[f]
  {
    var h, acks := RunRight(n, run, t);
    var s := run[t];
    assert PipeRight(s.cluster, h, s.pipes[i]) && PipeRight(s.cluster, h, s.pipes[j]);
    var x, y := s.pipes[i].events[e], s.pipes[j].events[f];
    FixedAgree(s.cluster, h, acks, x.index, x.command, y.command);
  }

  /** The server is one of those that draw their commands from the sequence. */
  predicate DrawsFrom(p: Pipe, ops: seq<Op>) {
    && 0 <= Done(p) <= |ops|
    && (forall e {:trigger p.events[e]} :: 0 <= e < |p.events| && p.events[e].Ran? ==>
          1 <= p.events[e].index <= Done(p) && p.events[e].command == ops[p.events[e].index - 1])
    && (Fair(ops[..Done(p)]) ==> p.kv.store.Keys == KeysOf(ops[..Done(p)]))
  }

  lemma Draws(c: State, h: Past, acks: set<Ack>, s: Node, p: Pipe, ops: seq<Op>)
    requires PastInv(h) && LeadsCover(c, h, acks) && RecordsGood(c, h, acks)
    requires PipeInv(s, p) && PipeRight(c, h, p) && Decided(c, h, ops) && Done(p) <= |ops|
    ensures DrawsFrom(p, ops)
  {
    forall e | 0 <= e < |p.events| && p.events[e].Ran?
      ensures 1 <= p.events[e].index <= Done(p) && p.events[e].command == ops[p.events[e].index - 1]
    {
      assert 1 <= p.events[e].index <= p.ran;
      FixedAt(c, h, acks, ops, p.events[e].index, p.events[e].command);
    }
    var some: seq<Op> :| Decided(c, h, some) && |some| == Done(p) && KvIs(p.kv, some);
    DecidedAgree(c, h, acks, some, ops);
    assert ops[..Done(p)] == some;
  }

  /** What a node has committed is decided, and its server has not handled more. */
  lemma NodeDecided(c: State, h: Past, acks: set<Ack>, s: Node, p: Pipe) returns (ops: seq<Op>)
    requires PastInv(h) && RecordsGood(c, h, acks)
    requires Sound(s) && NodePath(h, s) && NodeCommitted(c, h, s) && PipeInv(s, p)
    ensures Decided(c, h, ops) && Done(p) <= |ops|
  {
    var f, q := Whole(h, s), Path(h, s.snapTerm, s.snapIndex);
    if Seam(s, f) {
      CommittedDecided(c, h, acks, s.term, f, s.commitIndex);
      ops := Commands(f, s.commitIndex);
    } else {
      CommittedDecided(c, h, acks, s.term, q, s.snapIndex);
      ops := Commands(q, s.snapIndex);
    }
  }

  ghost predicate DecidedFor(c: State, h: Past, p: Pipe) {
    exists ops: seq<Op> {:trigger Decided(c, h, ops)} :: Decided(c, h, ops) && Done(p) <= |ops|
  }

  lemma PipeDecided(s: System, h: Past, acks: set<Ack>, i: nat)
    requires ReplicaInv(s, h, acks) && i < |s.pipes|
    ensures DecidedFor(s.cluster, h, s.pipes[i])
  {
    NodeFacts(s.cluster, h, acks, i);
    assert PipeInv(s.cluster.nodes[i], s.pipes[i]);
    var ops := NodeDecided(s.cluster, h, acks, s.cluster.nodes[i], s.pipes[i]);
  }

  lemma {:induction false} LongestDecided(c: State, h: Past, pipes: seq<Pipe>, n: nat) returns (ops: seq<Op>)
    requires n <= |pipes| && forall i {:trigger pipes[i]} :: 0 <= i < n ==> DecidedFor(c, h, pipes[i])
    ensures Decided(c, h, ops) && forall i {:trigger pipes[i]} :: 0 <= i < n ==> Done(pipes[i]) <= |ops|
    decreases n
  {
    ops := [];
    if n > 0 {
      ops := LongestDecided(c, h, pipes, n - 1);
      assert DecidedFor(c, h, pipes[n - 1]);
      var more: seq<Op> :| Decided(c, h, more) && Done(pipes[n - 1]) <= |more|;
      if |more| > |ops| { ops := more; }
    }
  }

  /** One sequence: in every state of a clean run there is one sequence of commands from which every server
      draws all that it has run, whatever snapshots it installed, and the keys in its store are those that
      the commands up to its present index write, provided that retries repeat the key of their request and
      each client's new requests have increasing ids. */
  lemma OneSequence(n: nat, run: seq<System>, t: nat) returns (ops: seq<Op>)
    requires IsCleanSystemRun(n, run) && t < |run|
    ensures forall i {:trigger run[t].pipes[i]} :: 0 <= i < |run[t].pipes| ==> DrawsFrom(run[t].pipes[i], ops)
  {
    var h, acks := RunRight(n, run, t);
    var s := run[t];
    forall i | 0 <= i < |s.pipes| ensures DecidedFor(s.cluster, h, s.pipes[i]) { PipeDecided(s, h, acks, i); }
    ops := LongestDecided(s.cluster, h, s.pipes, |s.pipes|);
    forall i | 0 <= i < |s.pipes| ensures DrawsFrom(s.pipes[i], ops) {
      assert PipeInv(s.cluster.nodes[i], s.pipes[i]) && PipeRight(s.cluster, h, s.pipes[i]);
      Draws(s.cluster, h, acks, s.cluster.nodes[i], s.pipes[i], ops);
    }
  }

  predicate OnlyRan(events: seq<Event>) {
    forall k :: 0 <= k < |events| ==> events[k].Ran?
  }

  /** Without snapshots the indices that run are 1, 2, 3, ... */
  lemma {:induction false} RunsFromOne(events: seq<Event>, k: nat)
    requires OnlyRan(events) && InOrder(events) && GapFree(events) && k < |events|
    requires forall e :: 0 <= e < |events| ==> events[e].index >= 1
    ensures events[k].index == k + 1
  {
    if k == 0 {
      assert !Covered(events, 0, 1);
    } else {
      RunsFromOne(events, k - 1);
      forall e | 0 <= e < k ensures events[e].index <= k {
        assert e < k - 1 ==> events[e].index < events[k - 1].index;
      }
      assert !Covered(events, k, k + 1);
    }
  }

  lemma AllFromOne(s: Node, p: Pipe)
    requires PipeInv(s, p) && OnlyRan(p.events)
    ensures forall k {:trigger p.events[k]} :: 0 <= k < |p.events| ==> p.events[k].index == k + 1
  {
    forall k | 0 <= k < |p.events| ensures p.events[k].index == k + 1 {
      RunsFromOne(p.events, k);
    }
  }

  /** Replicas agree: of two servers that have installed no snapshot, the one that has run fewer commands
      is in the state that the other was in after as many. */
  lemma ServersAgree(n: nat, run: seq<System>, t: nat, i: nat, j: nat)
    requires IsCleanSystemRun(n, run) && t < |run| && i < |run[t].pipes| && j < |run[t].pipes|
    requires var x, y := run[t].pipes[i].events, run[t].pipes[j].events; OnlyRan(x) && OnlyRan(y) && |x| <= |y|
    ensures var p, q := run[t].pipes[i], run[t].pipes[j];
            p.events == q.events[..|p.events|] && Core(p.kv) == Core(Rerun(q.events[..|p.events|]))
  {
    CleanSystemIsRun(n, run);
    RunInv(n, run, t);
    var p, q := run[t].pipes[i], run[t].pipes[j];
    assert PipeInv(run[t].cluster.nodes[i], p) && PipeInv(run[t].cluster.nodes[j], q);
    AllFromOne(run[t].cluster.nodes[i], p);
    AllFromOne(run[t].cluster.nodes[j], q);
    forall k | 0 <= k < |p.events| ensures p.events[k] == q.events[k] {
      SameCommands(n, run, t, i, j, k, k);
    }
    assert p.events == q.events[..|p.events|];
  }

  function CommandsOf(events: seq<Event>): seq<Command>
    requires OnlyRan(events)
  {
    seq(|events|, k requires 0 <= k < |events| => events[k].command)
  }

  /** What survives snapshots: a server that has handled up to some index, running commands or installing
      snapshots, has just the keys that the commands up to there write, as a server that ran them all has
      recorded them. */
  lemma KeysSurvive(n: nat, run: seq<System>, t: nat, i: nat, j: nat)
    requires IsCleanSystemRun(n, run) && t < |run| && i < |run[t].pipes| && j < |run[t].pipes|
    requires OnlyRan(run[t].pipes[j].events) && 0 <= Done(run[t].pipes[i]) <= |run[t].pipes[j].events|
    requires Fair(CommandsOf(run[t].pipes[j].events)[..Done(run[t].pipes[i])])
    ensures run[t].pipes[i].kv.store.Keys == KeysOf(CommandsOf(run[t].pipes[j].events)[..Done(run[t].pipes[i])])
  {
    var p, q := run[t].pipes[i], run[t].pipes[j];
    CleanSystemIsRun(n, run);
    RunInv(n, run, t);
    assert PipeInv(run[t].cluster.nodes[j], q);
    AllFromOne(run[t].cluster.nodes[j], q);
    var ops := OneSequence(n, run, t);
    assert DrawsFrom(p, ops) && DrawsFrom(q, ops);
    RecordedFront(q, ops, Done(p));
  }

  /** A server that ran every command has recorded the beginning of the sequence. */
  lemma RecordedFront(q: Pipe, ops: seq<Op>, n: nat)
    requires DrawsFrom(q, ops) && OnlyRan(q.events) && n <= |q.events|
    requires forall k {:trigger q.events[k]} :: 0 <= k < |q.events| ==> q.events[k].index == k + 1
    ensures n <= |ops| && ops[..n] == CommandsOf(q.events)[..n]
  {
    if n > 0 { assert q.events[n - 1].index == n; }
    var front := CommandsOf(q.events)[..n];
    forall k | 0 <= k < n ensures ops[k] == front[k] {
      assert q.events[k].index == k + 1;
    }
  }

  lemma {:induction false} RerunIsReplay(events: seq<Event>)
    requires OnlyRan(events) && forall k :: 0 <= k < |events| ==> events[k].index == k + 1
    ensures Rerun(events) == Replay(CommandsOf(events))
  {
    if events != [] {
      var front := events[..|events| - 1];
      RerunIsReplay(front);
      assert CommandsOf(events)[..|events| - 1] == CommandsOf(front);
    }
  }

  /** A server without installed snapshots, in any run: its store is that of the commands it has run with
      the retries deleted, if each client's new requests have increasing ids. */
  lemma ServerWithoutRetries(n: nat, run: seq<System>, t: nat, i: nat)
    requires IsSystemRun(n, run) && t < |run| && i < |run[t].pipes| && OnlyRan(run[t].pipes[i].events)
    requires NewIdsIncrease(CommandsOf(run[t].pipes[i].events))
    ensures run[t].pipes[i].kv.store == WriteAll(map[], Firsts(CommandsOf(run[t].pipes[i].events)))
  {
    RunInv(n, run, t);
    var p := run[t].pipes[i];
    assert PipeInv(run[t].cluster.nodes[i], p);
    AllFromOne(run[t].cluster.nodes[i], p);
    RerunIsReplay(p.events);
    RetriesDeleted(CommandsOf(p.events));
  }
}
