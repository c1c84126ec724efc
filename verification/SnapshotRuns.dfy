/** A clean run of the whole system after which two servers have handled the same commands and differ: one
    ran the command, the other installed the snapshot that covers it. */
module SnapshotRuns {
  import opened KvTypes
  import opened RaftNode
  import opened Cluster
  import opened StaleTail
  import opened SkipKeys
  import opened SkipLists
  import KvStore
  import opened ApplyPipeline
  import opened Replicas
  import opened ThreeNodes

  const OP := Op("Put", "k", "a", "client", 1)

  /** The server of node 0 after it ran the command. */
  const RAN := Pipe([], [], KvStore.Kv(map["k" := "a"], map["client" := 1], 0, map[]), 1, [Ran(1, OP)])

  const IMAGE := Image(["k"], ["a"], 0)

  /** The cluster goes on from here: node 0 leads, node 2 has heard nothing. */
  predicate LedBy0(c: State, lastApplied: int, snapIndex: int) {
    && |c.nodes| == 3 && Sound(c.nodes[0]) && c.nodes[0].me == 0 && c.nodes[0].peers == 3
    && c.nodes[0].status == Leader && c.nodes[0].term == 1 && c.nodes[0].nextIndex == [1, 2, 1]
    && c.nodes[0].commitIndex == 1 && c.nodes[0].lastApplied == lastApplied && c.nodes[0].snapIndex == snapIndex
    && (if snapIndex == 0 then c.nodes[0].logs == [A] && c.nodes[0].snapTerm == 0
        else c.nodes[0].logs == [] && c.nodes[0].snapTerm == 1)
    && OfThree(c.nodes[2], 2, 0, NOBODY, Follower, [], 0)
  }

  ghost predicate At3(s: System, p: Pipe) {
    && ReachSystem(3, s) && Structured(s.cluster) && |s.cluster.nodes| == 3 && s.pipes == [p, EMPTY_PIPE, EMPTY_PIPE]
  }

  lemma Committed() returns (s: System)
    ensures At3(s, EMPTY_PIPE) && LedBy0(s.cluster, 0, 0)
  {
    s := FirstCommitted();
    assert GoodNode(s.cluster.nodes, 0);
  }

  /** The applier collects the command, pushes it, and the server runs it. */
  lemma Collected() returns (s: System)
    ensures At3(s, EMPTY_PIPE.(batch := [CommandMsg(OP, 1)])) && LedBy0(s.cluster, 1, 0)
  {
    s := Committed();
    assert ApplyLogs(s.cluster.nodes[0]) == [CommandMsg(OP, 1)];
    s := Turns(3, s, Net(Apply(0)));
  }

  lemma Queued() returns (s: System)
    ensures At3(s, EMPTY_PIPE.(queue := [CommandMsg(OP, 1)])) && LedBy0(s.cluster, 1, 0)
  {
    s := Collected();
    assert [CommandMsg(OP, 1)][1..] == [] && [] + [CommandMsg(OP, 1)] == [CommandMsg(OP, 1)];
    s := Turns(3, s, Push(0));
  }

  lemma FirstRan() returns (s: System)
    ensures At3(s, RAN) && LedBy0(s.cluster, 1, 0)
  {
    s := Queued();
    assert Consumes(s.pipes[0]) == RAN;
    s := Turns(3, s, Consume(0));
  }

  lemma ImageIsRight()
    ensures KvStore.ImageOf(RAN.kv, IMAGE)
  {
    var ps := Zip(Dump(IMAGE.keys, IMAGE.vals));
    assert ps == [("k", "a")] && ps[..0] == [];
    assert MapOf(ps[..0]) == map[];
    assert MapOf(ps) == map["k" := "a"];
  }

  /** The server asks for a snapshot, and node 0 compacts. */
  lemma Compacted() returns (s: System)
    ensures At3(s, RAN) && LedBy0(s.cluster, 1, 1) && s.cluster.nodes[0].snapshot == IMAGE
  {
    s := FirstRan();
    ImageIsRight();
    CompactSteady(s.cluster.nodes[0], 1, IMAGE);
    s := Turns(3, s, Net(TakeSnapshot(0, 1, IMAGE)));
  }

  lemma LastTask(s: RaftNode.Node)
    requires Sound(s) && s.me == 0 && s.peers == 3 && s.nextIndex == [1, 2, 1] && s.snapIndex == 1 && s.logs == []
    ensures CanBeat(s) && |SnapTasks(0, Round(s))| > 0
    ensures SnapTasks(0, Round(s))[|SnapTasks(0, Round(s))| - 1] == SnapPosted(0, 2)
  {
    assert Round(s)[2] == DispatchTo(s, 2) == SnapshotTask;
  }

  /** The next heartbeat posts a snapshot for node 2. */
  lemma Posted() returns (s: System, k: nat)
    ensures At3(s, RAN) && LedBy0(s.cluster, 1, 1) && s.cluster.nodes[0].snapshot == IMAGE
    ensures k < |s.cluster.snaps| && s.cluster.snaps[k] == SnapPosted(0, 2)
  {
    s := Compacted();
    LastTask(s.cluster.nodes[0]);
    k := |s.cluster.snaps| + |SnapTasks(0, Round(s.cluster.nodes[0]))| - 1;
    s := Turns(3, s, Net(DoHeartBeat(0)));
  }

  const SNAPSHOT := InstallSnapshotArgs(1, 0, 1, 1, IMAGE)

  lemma Sent() returns (s: System, k: nat)
    ensures At3(s, RAN) && k < |s.cluster.snaps| && s.cluster.snaps[k] == SnapPending(0, 2, SNAPSHOT)
    ensures OfThree(s.cluster.nodes[2], 2, 0, NOBODY, Follower, [], 0)
  {
    s, k := Posted();
    s := Turns(3, s, Net(BuildSnap(k)));
  }

  lemma Installs() returns (s: System)
    ensures ReachSystem(3, s) && Structured(s.cluster) && |s.cluster.nodes| == |s.pipes| == 3
    ensures s.pipes[0] == RAN && s.pipes[2] == EMPTY_PIPE.(queue := [SnapshotMsg(IMAGE, 1, 1)])
  {
    var k;
    s, k := Sent();
    assert GoodNode(s.cluster.nodes, 2) && GoodSnap(s.cluster.nodes, s.cluster.snaps[k]);
    assert Pushed(s.cluster, k) == [SnapshotMsg(IMAGE, 1, 1)];
    s := Turns(3, s, Net(AnswerSnap(k)));
  }

  /** Agreement fails behind a snapshot: both servers have handled index 1, their keys are the same, but the
      one that installed the snapshot has the key as the value, and no table of requests. */
  lemma SnapshotsDiffer() returns (s: System)
    ensures ReachSystem(3, s) && |s.pipes| == 3
    ensures Done(s.pipes[0]) == Done(s.pipes[2]) == 1
    ensures s.pipes[0].kv.store == map["k" := "a"] && s.pipes[2].kv.store == map["k" := "k"]
    ensures s.pipes[0].kv.last == map["client" := 1] && s.pipes[2].kv.last == map[]
  {
    s := Installs();
    assert Loaded(map[], ["k"]) == map["k" := "k"];
    s := Turns(3, s, Consume(2));
  }
}
