/** From the log to the key-value store: the applier collects a batch under the node's lock but pushes
    it into a bounded channel without the lock, InstallSnapshot pushes its snapshot under the lock, and
    the server takes one message after the other. All of this is interleaved with every other action
    of the cluster. */
module ApplyPipeline {
  import opened KvTypes
  import opened RaftNode
  import opened Cluster
  import opened KvStore
  import opened KvServers

  // make_shared<channel<ApplyMsg>>(2)
  const APPLY_CAPACITY := 2

  /** History: a command passed the check against the installed snapshot, or a snapshot was installed. */
  datatype Event = Ran(index: int, command: Op) | Installed(index: int, data: Image)

  /** batch is what the applier has collected but not pushed; ran is history: the last index that ran. */
  datatype Pipe = Pipe(batch: seq<ApplyMsg>, queue: seq<ApplyMsg>, kv: Kv, ran: int, events: seq<Event>)

  datatype System = System(cluster: State, pipes: seq<Pipe>)

  /** Client: the requests that wait for an index, and what is queued for them, change in any way. */
  datatype Turn = Net(action: Action) | Push(i: nat) | Consume(i: nat) | Client(i: nat, waiting: map<int, seq<Op>>)

  function Pushed(c: State, k: nat): seq<ApplyMsg>
    requires Structured(c) && Enabled(c, AnswerSnap(k))
  {
    assert GoodSnap(c.nodes, c.snaps[k]) && GoodNode(c.nodes, c.snaps[k].server);
    HandleInstall(c.nodes[c.snaps[k].server], c.snaps[k].args).pushed
  }

  /** The server asks for a snapshot at the command it has just run, and hands over its present image. */
  ghost predicate SnapshotDue(p: Pipe, index: int, data: Image) {
    && index == p.ran && ImageOf(p.kv, data)
    && p.events != [] && p.events[|p.events| - 1].Ran? && p.events[|p.events| - 1].index == index
  }

  /** The applier collects only after it has pushed the batch before. A push waits for room in the channel,
      and so does the reader for room in the channel of a waiting client. */
  ghost predicate CanTurn(s: System, turn: Turn)
    requires Structured(s.cluster) && |s.pipes| == |s.cluster.nodes|
  {
    match turn
    case Net(a) =>
      Enabled(s.cluster, a) && (
        match a
        case Apply(i) => s.pipes[i].batch == []
        case AnswerSnap(k) =>
          |s.pipes[s.cluster.snaps[k].server].queue| + |Pushed(s.cluster, k)| <= APPLY_CAPACITY
        case TakeSnapshot(i, index, data) => SnapshotDue(s.pipes[i], index, data)
        case _ => true)
    case Push(i) => i < |s.pipes| && s.pipes[i].batch != [] && |s.pipes[i].queue| < APPLY_CAPACITY
    case Consume(i) =>
      && i < |s.pipes| && s.pipes[i].queue != []
      && !Stuck(s.pipes[i].kv.waiting, s.pipes[i].kv.snapAt, s.pipes[i].queue[0])
    case Client(i, _) => i < |s.pipes|
  }

  function Pushes(p: Pipe): Pipe
    requires p.batch != []
  {
    p.(batch := p.batch[1..], queue := p.queue + [p.batch[0]])
  }

  /** A command at or below the installed snapshot is dropped. */
  function Consumes(p: Pipe): Pipe
    requires p.queue != []
  {
    var m := p.queue[0];
    var q := p.(queue := p.queue[1..], kv := Deliver(p.kv, m));
    match m
    case SnapshotMsg(data, _, index) => q.(events := p.events + [Installed(index, data)])
    case CommandMsg(command, index) =>
      if index <= p.kv.snapAt then q else q.(ran := index, events := p.events + [Ran(index, command)])
  }

  function After(k: Kv, e: Event): Kv {
    match e
    case Ran(index, command) => HandleCommand(k, index, command)
    case Installed(index, data) => HandleSnapshot(k, data, index)
  }

  /** What the events alone make of an empty server. */
  function Rerun(events: seq<Event>): Kv {
    if events == [] then EMPTY else After(Rerun(events[..|events| - 1]), events[|events| - 1])
  }

  ghost function NetPipes(s: System, a: Action): seq<Pipe>
    requires Structured(s.cluster) && |s.pipes| == |s.cluster.nodes| && CanTurn(s, Net(a))
  {
    match a
    case Apply(i) =>
      assert GoodNode(s.cluster.nodes, i);
      s.pipes[i := s.pipes[i].(batch := ApplyLogs(s.cluster.nodes[i]))]
    case AnswerSnap(k) =>
      var i := s.cluster.snaps[k].server;
      s.pipes[i := s.pipes[i].(queue := s.pipes[i].queue + Pushed(s.cluster, k))]
    case _ => s.pipes
  }

  ghost function Next(s: System, turn: Turn): System
    requires Structured(s.cluster) && |s.pipes| == |s.cluster.nodes| && CanTurn(s, turn)
  {
    match turn
    case Net(a) => System(Step(s.cluster, a), NetPipes(s, a))
    case Push(i) => s.(pipes := s.pipes[i := Pushes(s.pipes[i])])
    case Consume(i) => s.(pipes := s.pipes[i := Consumes(s.pipes[i])])
    case Client(i, waiting) => s.(pipes := s.pipes[i := Visited(s.pipes[i], waiting)])
  }

  function Visited(p: Pipe, waiting: map<int, seq<Op>>): Pipe {
    p.(kv := p.kv.(waiting := waiting))
  }

  const EMPTY_PIPE := Pipe([], [], EMPTY, 0, [])

  function InitSystem(n: nat): System {
    System(Init(n), seq(n, _ => EMPTY_PIPE))
  }

  ghost predicate IsTurn(s: System, t: System) {
    && Structured(s.cluster) && |s.pipes| == |s.cluster.nodes|
    && exists turn :: CanTurn(s, turn) && t == Next(s, turn)
  }

  ghost predicate IsSystemRun(n: nat, run: seq<System>) {
    && n >= 1 && |run| >= 1 && run[0] == InitSystem(n)
    && forall t :: 0 <= t < |run| - 1 ==> IsTurn(run[t], run[t + 1])
  }

  // ----------------------------------------------------------------- invariant

  /** x was already covered, or is by one of the first n messages. */
  predicate Within(done: int, ms: seq<ApplyMsg>, n: nat, x: int)
    requires n <= |ms|
  {
    x <= done || exists j :: 0 <= j < n && x <= ms[j].index
  }

  /** Commands come in increasing order, and so do snapshots. */
  predicate Ordered(ms: seq<ApplyMsg>) {
    forall i, j :: 0 <= i < j < |ms| && ms[i].CommandMsg? == ms[j].CommandMsg? ==> ms[i].index < ms[j].index
  }

  predicate InFlow(applied: int, snap: int, ran: int, snapAt: int, m: ApplyMsg) {
    m.index <= applied && if m.CommandMsg? then ran < m.index else snapAt < m.index <= snap
  }

  /** No command comes before the one below it, unless a snapshot that covers that one comes earlier. */
  predicate NoGap(done: int, ms: seq<ApplyMsg>) {
    forall i :: 0 <= i < |ms| && ms[i].CommandMsg? ==> Within(done, ms, i, ms[i].index - 1)
  }

  /** What lies between a node that has handed over everything up to applied and a server that has run
      ran and installed snapAt. */
  predicate Flow(applied: int, snap: int, ran: int, snapAt: int, ms: seq<ApplyMsg>) {
    && 0 <= ran <= applied && 0 <= snapAt <= snap
    && (forall i :: 0 <= i < |ms| ==> InFlow(applied, snap, ran, snapAt, ms[i]))
    && Ordered(ms)
    && NoGap(Max(ran, snapAt), ms)
    && Within(Max(ran, snapAt), ms, |ms|, applied)
  }

  /** Index j is among the first k events, or covered by a snapshot there. */
  predicate Covered(events: seq<Event>, k: nat, j: int)
    requires k <= |events|
  {
    exists e :: 0 <= e < k && (if events[e].Ran? then events[e].index == j else j <= events[e].index)
  }

  /** Indices run in increasing order, snapshots are installed in increasing order, and nothing runs that
      an installed snapshot already covers. */
  predicate InOrder(events: seq<Event>) {
    forall i, j :: 0 <= i < j < |events| && (events[j].Ran? || events[i].Installed?) ==>
        events[i].index < events[j].index
  }

  /** When an index runs, every index below it has run or is covered by an installed snapshot. */
  predicate GapFree(events: seq<Event>) {
    forall k, j :: 0 <= k < |events| && events[k].Ran? && 1 <= j < events[k].index ==> Covered(events, k, j)
  }

  predicate Handled(ran: int, snapAt: int, events: seq<Event>) {
    && (forall e :: 0 <= e < |events| ==> 1 <= events[e].index <= if events[e].Ran? then ran else snapAt)
    && (forall j :: 1 <= j <= Max(ran, snapAt) ==> Covered(events, |events|, j))
    && InOrder(events) && GapFree(events)
  }

  predicate PipeInv(s: Node, p: Pipe) {
    && |p.queue| <= APPLY_CAPACITY
    && (forall k :: 0 <= k < |p.batch| ==> p.batch[k].CommandMsg?)
    && Flow(s.lastApplied, s.snapIndex, p.ran, p.kv.snapAt, p.queue + p.batch)
    && Handled(p.ran, p.kv.snapAt, p.events)
    && Core(p.kv) == Core(Rerun(p.events))
  }

  predicate SystemInv(s: System) {
    && Structured(s.cluster) && |s.pipes| == |s.cluster.nodes|
    && forall i :: 0 <= i < |s.pipes| ==> PipeInv(s.cluster.nodes[i], s.pipes[i])
  }

  // ------------------------------------------------------- the producers keep it

  lemma WithinPrefix(done: int, ms: seq<ApplyMsg>, more: seq<ApplyMsg>, n: nat, x: int)
    requires n <= |ms| && Within(done, ms, n, x)
    ensures Within(done, ms + more, n, x)
  {
    if x > done {
      var j :| 0 <= j < n && x <= ms[j].index;
      assert (ms + more)[j] == ms[j];
    }
  }

  /** The next commands are collected. */
  lemma FlowCollected(applied: int, snap: int, ran: int, snapAt: int, ms: seq<ApplyMsg>, more: seq<ApplyMsg>)
    requires Flow(applied, snap, ran, snapAt, ms)
    requires forall k :: 0 <= k < |more| ==> more[k].CommandMsg? && more[k].index == applied + 1 + k
    ensures Flow(applied + |more|, snap, ran, snapAt, ms + more)
  {
    var all, done := ms + more, Max(ran, snapAt);
    forall i | 0 <= i < |all| && all[i].CommandMsg? ensures Within(done, all, i, all[i].index - 1) {
      if i < |ms| {
        WithinPrefix(done, ms, more, i, ms[i].index - 1);
      } else if i == |ms| {
        WithinPrefix(done, ms, more, |ms|, applied);
      } else {
        assert all[i - 1].index == all[i].index - 1;
      }
    }
    if more != [] { assert all[|all| - 1].index == applied + |more|; } else { assert all == ms; }
  }

  /** Where message i of front + back is found after m was put in between. */
  function Shifted(front: seq<ApplyMsg>, i: nat): nat {
    if i < |front| then i else i + 1
  }

  lemma WithinInserted(done: int, front: seq<ApplyMsg>, back: seq<ApplyMsg>, m: ApplyMsg, n: nat, x: int)
    requires n <= |front + back| && Within(done, front + back, n, x)
    ensures Within(done, front + [m] + back, Shifted(front, n), x)
  {
    if x > done {
      var j :| 0 <= j < n && x <= (front + back)[j].index;
      assert (front + [m] + back)[Shifted(front, j)] == (front + back)[j];
    }
  }

  lemma Unshifted(front: seq<ApplyMsg>, back: seq<ApplyMsg>, m: ApplyMsg, i: nat) returns (j: nat)
    requires i < |front + [m] + back| && i != |front|
    ensures j < |front + back| && Shifted(front, j) == i && (front + [m] + back)[i] == (front + back)[j]
    ensures j == if i < |front| then i else i - 1
  {
    j := if i < |front| then i else i - 1;
  }

  lemma OrderedInserted(snap: int, front: seq<ApplyMsg>, back: seq<ApplyMsg>, m: ApplyMsg)
    requires Ordered(front + back) && m.SnapshotMsg? && snap < m.index
    requires forall i :: 0 <= i < |front + back| && (front + back)[i].SnapshotMsg? ==> (front + back)[i].index <= snap
    requires forall k :: 0 <= k < |back| ==> back[k].CommandMsg?
    ensures Ordered(front + [m] + back)
  {
    var all := front + [m] + back;
    forall i, j | 0 <= i < j < |all| && all[i].CommandMsg? == all[j].CommandMsg? ensures all[i].index < all[j].index {
      if i != |front| {
        var i' := Unshifted(front, back, m, i);
        if j != |front| { var j' := Unshifted(front, back, m, j); }
      }
    }
  }

  /** A snapshot that is newer than every earlier one is put in before the commands in back. */
  lemma FlowOvertaken(applied: int, snap: int, ran: int, snapAt: int, front: seq<ApplyMsg>, back: seq<ApplyMsg>,
                      m: ApplyMsg)
    requires Flow(applied, snap, ran, snapAt, front + back) && m.SnapshotMsg? && snap < m.index
    requires forall k :: 0 <= k < |back| ==> back[k].CommandMsg?
    ensures Flow(Max(applied, m.index), m.index, ran, snapAt, front + [m] + back)
  {
    var ms, all, done := front + back, front + [m] + back, Max(ran, snapAt);
    forall i | 0 <= i < |all|
      ensures InFlow(Max(applied, m.index), m.index, ran, snapAt, all[i])
      ensures all[i].CommandMsg? ==> Within(done, all, i, all[i].index - 1)
    {
      if i != |front| {
        var j := Unshifted(front, back, m, i);
        assert InFlow(applied, snap, ran, snapAt, ms[j]);
        if ms[j].CommandMsg? { WithinInserted(done, front, back, m, j, ms[j].index - 1); }
      }
    }
    assert forall i :: 0 <= i < |ms| ==> InFlow(applied, snap, ran, snapAt, ms[i]);
    OrderedInserted(snap, front, back, m);
    WithinInserted(done, front, back, m, |ms|, applied);
    assert all[|front|] == m;
  }

  /** One message less, for the server that has handled it. */
  lemma WithinPopped(done: int, ms: seq<ApplyMsg>, n: nat, x: int)
    requires 1 <= n <= |ms| && Within(done, ms, n, x)
    ensures Within(Max(done, ms[0].index), ms[1..], n - 1, x)
  {
    if x > done && x > ms[0].index {
      var j :| 0 <= j < n && x <= ms[j].index;
      assert ms[1..][j - 1] == ms[j];
    }
  }

  lemma FlowPopped(applied: int, snap: int, ran: int, snapAt: int, ran': int, snapAt': int, ms: seq<ApplyMsg>)
    requires Flow(applied, snap, ran, snapAt, ms) && ms != []
    requires ran' == (if ms[0].CommandMsg? && ms[0].index > snapAt then ms[0].index else ran)
    requires snapAt' == if ms[0].CommandMsg? then snapAt else ms[0].index
    ensures Flow(applied, snap, ran', snapAt', ms[1..])
  {
    var rest, done := ms[1..], Max(ran, snapAt);
    assert Max(ran', snapAt') == Max(done, ms[0].index) by { assert InFlow(applied, snap, ran, snapAt, ms[0]); }
    forall i | 0 <= i < |rest|
      ensures InFlow(applied, snap, ran', snapAt', rest[i])
      ensures rest[i].CommandMsg? ==> Within(Max(done, ms[0].index), rest, i, rest[i].index - 1)
    {
      assert rest[i] == ms[i + 1] && InFlow(applied, snap, ran, snapAt, ms[i + 1]);
      if rest[i].CommandMsg? { WithinPopped(done, ms, i + 1, ms[i + 1].index - 1); }
    }
    WithinPopped(done, ms, |ms|, applied);
  }

  lemma CoveredLater(events: seq<Event>, e: Event, k: nat, j: int)
    requires k <= |events| && Covered(events, k, j)
    ensures Covered(events + [e], k, j) && Covered(events + [e], |events| + 1, j)
  {
    var i :| 0 <= i < k && (if events[i].Ran? then events[i].index == j else j <= events[i].index);
    assert (events + [e])[i] == events[i];
  }

  lemma HandledMore(ran: int, snapAt: int, ran': int, snapAt': int, events: seq<Event>, e: Event)
    requires Handled(ran, snapAt, events) && e.index >= 1
    requires ran' == (if e.Ran? then e.index else ran) && snapAt' == if e.Ran? then snapAt else e.index
    requires e.Ran? ==> ran < e.index && snapAt < e.index && e.index - 1 <= Max(ran, snapAt)
    requires e.Installed? ==> snapAt < e.index
    ensures Handled(ran', snapAt', events + [e])
  {
    var more := events + [e];
    assert more[|events|] == e;
    forall j | 1 <= j <= Max(ran', snapAt') ensures Covered(more, |more|, j) {
      if j <= Max(ran, snapAt) { CoveredLater(events, e, |events|, j); }
    }
    forall k, j | 0 <= k < |more| && more[k].Ran? && 1 <= j < more[k].index ensures Covered(more, k, j) {
      if k < |events| { CoveredLater(events, e, k, j); } else { CoveredLater(events, e, |events|, j); }
    }
  }

  lemma DeliverSnapAt(k: Kv, m: ApplyMsg)
    ensures Deliver(k, m).snapAt == if m.CommandMsg? then k.snapAt else m.index
  {}

  // ------------------------------------------------------ every turn keeps it

  lemma CollectKeeps(s: Node, p: Pipe)
    requires Sound(s) && PipeInv(s, p) && p.batch == []
    ensures PipeInv(Applied(s), p.(batch := ApplyLogs(s)))
  {
    assert p.queue + p.batch == p.queue;
    FlowCollected(s.lastApplied, s.snapIndex, p.ran, p.kv.snapAt, p.queue, ApplyLogs(s));
  }

  lemma PushKeeps(s: Node, p: Pipe)
    requires PipeInv(s, p) && p.batch != [] && |p.queue| < APPLY_CAPACITY
    ensures PipeInv(s, Pushes(p))
  {
    assert Pushes(p).queue + Pushes(p).batch == p.queue + p.batch;
  }

  lemma InstallKeeps(s: Node, a: InstallSnapshotArgs, p: Pipe)
    requires Sound(s) && SaneSnapshot(a) && PipeInv(s, p)
    requires |p.queue| + |HandleInstall(s, a).pushed| <= APPLY_CAPACITY
    ensures PipeInv(HandleInstall(s, a).node, p.(queue := p.queue + HandleInstall(s, a).pushed))
  {
    var out := HandleInstall(s, a);
    if out.pushed == [] {
      assert p.queue + out.pushed == p.queue;
    } else {
      assert out.pushed == [out.pushed[0]];
      FlowOvertaken(s.lastApplied, s.snapIndex, p.ran, p.kv.snapAt, p.queue, p.batch, out.pushed[0]);
    }
  }

  /** Compaction at a command that has run hands nothing over. */
  lemma CompactKeeps(s: Node, index: int, data: Image, p: Pipe)
    requires Sound(s) && PipeInv(s, p) && index == p.ran
    ensures PipeInv(Compact(s, index, data), p)
  {}

  lemma RerunMore(events: seq<Event>, e: Event)
    ensures Rerun(events + [e]) == After(Rerun(events), e)
  {
    assert (events + [e])[..|events|] == events;
  }

  /** Dropped commands leave no trace: the server is what its events make it. */
  lemma ConsumeReruns(p: Pipe)
    requires p.queue != [] && Core(p.kv) == Core(Rerun(p.events))
    ensures Core(Consumes(p).kv) == Core(Rerun(Consumes(p).events))
  {
    var m := p.queue[0];
    DeliverCore(p.kv, Rerun(p.events), m);
    RerunMore(p.events, if m.CommandMsg? then Ran(m.index, m.command) else Installed(m.index, m.data));
  }

  lemma ConsumeKeeps(s: Node, p: Pipe)
    requires PipeInv(s, p) && p.queue != []
    ensures PipeInv(s, Consumes(p))
  {
    var m, q, ms := p.queue[0], Consumes(p), p.queue + p.batch;
    assert ms[0] == m && q.queue + q.batch == ms[1..];
    DeliverSnapAt(p.kv, m);
    ConsumeReruns(p);
    FlowPopped(s.lastApplied, s.snapIndex, p.ran, p.kv.snapAt, q.ran, q.kv.snapAt, ms);
    assert InFlow(s.lastApplied, s.snapIndex, p.ran, p.kv.snapAt, ms[0]);
    if m.SnapshotMsg? {
      HandledMore(p.ran, p.kv.snapAt, q.ran, q.kv.snapAt, p.events, Installed(m.index, m.data));
    } else if m.index > p.kv.snapAt {
      assert Within(Max(p.ran, p.kv.snapAt), ms, 0, m.index - 1);
      HandledMore(p.ran, p.kv.snapAt, q.ran, q.kv.snapAt, p.events, Ran(m.index, m.command));
    }
  }

  lemma ClientKeeps(s: Node, p: Pipe, waiting: map<int, seq<Op>>)
    requires PipeInv(s, p)
    ensures PipeInv(s, Visited(p, waiting))
  {}

  /** The other locked sections neither apply nor take a snapshot. */
  lemma QuietActor(c: State, a: Action)
    requires Structured(c) && Enabled(c, a) && !a.Apply? && !a.AnswerSnap? && !a.TakeSnapshot?
    ensures var s, t := c.nodes[Actor(c, a)], Step(c, a).nodes[Actor(c, a)];
            t.lastApplied == s.lastApplied && t.snapIndex == s.snapIndex
  {
    ActorOnly(c, a);
  }

  lemma QuietKeeps(s: Node, t: Node, p: Pipe)
    requires PipeInv(s, p) && t.lastApplied == s.lastApplied && t.snapIndex == s.snapIndex
    ensures PipeInv(t, p)
  {}

  lemma SnapTurnKeeps(s: System, k: nat)
    requires SystemInv(s) && CanTurn(s, Net(AnswerSnap(k)))
    ensures var i, t := s.cluster.snaps[k].server, Next(s, Net(AnswerSnap(k)));
            PipeInv(t.cluster.nodes[i], t.pipes[i])
  {
    var call := s.cluster.snaps[k];
    assert GoodSnap(s.cluster.nodes, call) && GoodNode(s.cluster.nodes, call.server);
    assert PipeInv(s.cluster.nodes[call.server], s.pipes[call.server]);
    InstallKeeps(s.cluster.nodes[call.server], call.args, s.pipes[call.server]);
  }

  lemma ActorKeeps(s: System, a: Action)
    requires SystemInv(s) && CanTurn(s, Net(a))
    ensures var i, t := Actor(s.cluster, a), Next(s, Net(a));
            i < |s.pipes| && PipeInv(t.cluster.nodes[i], t.pipes[i])
  {
    ActorOnly(s.cluster, a);
    var i := Actor(s.cluster, a);
    var node, p := s.cluster.nodes[i], s.pipes[i];
    assert PipeInv(node, p) && GoodNode(s.cluster.nodes, i);
    if a.Apply? { CollectKeeps(node, p); }
    else if a.AnswerSnap? { SnapTurnKeeps(s, a.k); }
    else if a.TakeSnapshot? { CompactKeeps(node, a.index, a.data, p); }
    else {
      QuietActor(s.cluster, a);
      QuietKeeps(node, Step(s.cluster, a).nodes[i], p);
    }
  }

  lemma NetKeeps(s: System, a: Action)
    requires SystemInv(s) && CanTurn(s, Net(a))
    ensures SystemInv(Next(s, Net(a)))
  {
    var t := Next(s, Net(a));
    StructureKept(s.cluster, a);
    ActorOnly(s.cluster, a);
    ActorKeeps(s, a);
    forall i | 0 <= i < |t.pipes| ensures PipeInv(t.cluster.nodes[i], t.pipes[i]) {
      assert PipeInv(s.cluster.nodes[i], s.pipes[i]);
      if i != Actor(s.cluster, a) { assert t.pipes[i] == s.pipes[i]; }
    }
  }

  lemma TurnKeeps(s: System, turn: Turn)
    requires SystemInv(s) && CanTurn(s, turn)
    ensures SystemInv(Next(s, turn))
  {
    match turn
    case Net(a) => NetKeeps(s, a);
    case Push(i) =>
      assert PipeInv(s.cluster.nodes[i], s.pipes[i]);
      PushKeeps(s.cluster.nodes[i], s.pipes[i]);
    case Consume(i) =>
      assert PipeInv(s.cluster.nodes[i], s.pipes[i]);
      ConsumeKeeps(s.cluster.nodes[i], s.pipes[i]);
    case Client(i, waiting) =>
      assert PipeInv(s.cluster.nodes[i], s.pipes[i]);
      ClientKeeps(s.cluster.nodes[i], s.pipes[i], waiting);
  }

  // ------------------------------------------------------------------ theorems

  lemma StartPipe(s: Node)
    requires s.lastApplied == 0 && s.snapIndex == 0
    ensures PipeInv(s, EMPTY_PIPE)
  {
    assert EMPTY_PIPE.queue + EMPTY_PIPE.batch == [];
    assert Flow(0, 0, 0, 0, []) && Handled(0, 0, []);
  }

  lemma StartInv(n: nat)
    requires n >= 1
    ensures SystemInv(InitSystem(n))
  {
    InitStructured(n);
    forall i | 0 <= i < n ensures PipeInv(InitSystem(n).cluster.nodes[i], InitSystem(n).pipes[i]) {
      StartPipe(InitNode(i, n));
    }
  }

  lemma {:induction false} RunInv(n: nat, run: seq<System>, t: nat)
    requires IsSystemRun(n, run) && t < |run|
    ensures SystemInv(run[t]) && |run[t].pipes| == n
  {
    if t == 0 {
      StartInv(n);
    } else {
      RunInv(n, run, t - 1);
      assert IsTurn(run[t - 1], run[t - 1 + 1]);
      var turn :| CanTurn(run[t - 1], turn) && run[t] == Next(run[t - 1], turn);
      TurnKeeps(run[t - 1], turn);
    }
  }

  /** Whatever the interleaving, on every server: indices run in increasing order; nothing runs that an
      installed snapshot covers; when an index runs, every index below it has run or is covered by a
      snapshot installed before. */
  lemma RunInOrder(n: nat, run: seq<System>, t: nat, i: nat)
    requires IsSystemRun(n, run) && t < |run| && i < n
    ensures i < |run[t].pipes| && InOrder(run[t].pipes[i].events) && GapFree(run[t].pipes[i].events)
  {
    RunInv(n, run, t);
    assert PipeInv(run[t].cluster.nodes[i], run[t].pipes[i]);
  }

  /** Event k is the one run of index j. */
  predicate RanOnceAt(events: seq<Event>, k: nat, j: int)
    requires k < |events|
  {
    && events[k].Ran? && events[k].index == j
    && forall l :: 0 <= l < |events| && events[l].Ran? && events[l].index == j ==> l == k
  }

  predicate OnceOrCovered(events: seq<Event>, j: int) {
    exists k :: 0 <= k < |events| && (RanOnceAt(events, k, j) || (events[k].Installed? && j <= events[k].index))
  }

  lemma HandledOnce(events: seq<Event>, j: int)
    requires InOrder(events) && Covered(events, |events|, j)
    ensures OnceOrCovered(events, j)
  {
    var k :| 0 <= k < |events| && (if events[k].Ran? then events[k].index == j else j <= events[k].index);
    if events[k].Ran? { assert RanOnceAt(events, k, j); }
  }

  /** Up to the highest index handled, every index ran exactly once or is covered by an installed snapshot. */
  lemma RunOnce(n: nat, run: seq<System>, t: nat, i: nat, e: nat, j: int)
    requires IsSystemRun(n, run) && t < |run| && i < n
    requires i < |run[t].pipes| && e < |run[t].pipes[i].events| && 1 <= j <= run[t].pipes[i].events[e].index
    ensures OnceOrCovered(run[t].pipes[i].events, j)
  {
    RunInv(n, run, t);
    var p := run[t].pipes[i];
    assert PipeInv(run[t].cluster.nodes[i], p);
    HandledOnce(p.events, j);
  }

  /** The channel stays within its capacity, and the server behind the node. */
  lemma RunBounded(n: nat, run: seq<System>, t: nat, i: nat)
    requires IsSystemRun(n, run) && t < |run| && i < n
    ensures i < |run[t].pipes| == |run[t].cluster.nodes|
    ensures |run[t].pipes[i].queue| <= APPLY_CAPACITY
    ensures run[t].pipes[i].ran <= run[t].cluster.nodes[i].lastApplied
    ensures run[t].pipes[i].kv.snapAt <= run[t].cluster.nodes[i].snapIndex
  {
    RunInv(n, run, t);
    assert PipeInv(run[t].cluster.nodes[i], run[t].pipes[i]);
  }

  /** Dropped commands, the interleaving and the waiting clients leave no trace: the map, the table and the
      marker of a server are what its events make them. */
  lemma RunReruns(n: nat, run: seq<System>, t: nat, i: nat)
    requires IsSystemRun(n, run) && t < |run| && i < n
    ensures i < |run[t].pipes| && Core(run[t].pipes[i].kv) == Core(Rerun(run[t].pipes[i].events))
  {
    RunInv(n, run, t);
    assert PipeInv(run[t].cluster.nodes[i], run[t].pipes[i]);
  }
}
