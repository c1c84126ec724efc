/** The class of kvServer.cc: the apply loop over the skip list, proved against KvStore.dfy. */
module KvServers {
  import opened KvTypes
  import opened RaftNode
  import opened RaftServer
  import opened Channels
  import opened SkipKeys
  import opened SkipLists
  import opened KvStore

  // m_skipList(6)
  const MAX_LEVEL := 6

  // waitCh(2)
  const WAIT_CAPACITY := 2

  /** Division as in C++, towards zero. */
  function Tenth(n: int): int {
    if n >= 0 then n / 10 else -((-n) / 10)
  }

  /** A size is over the tenth part of a bound that is not negative exactly when ten times the size is over it. */
  lemma OverTenth(size: int, bound: int)
    ensures size > Tenth(bound) <==> if bound >= 0 then 10 * size > bound else 10 * size >= bound + 10
  {}

  class KvServer {
    const raft: Raft
    const maxRaftState: int
    const skipList: SkipList<string>
    var last: map<string, int>
    var waiting: map<int, seq<Op>>
    var snapAt: int
    var serialized: Archive<string>

    ghost predicate Valid()
      reads this, skipList, skipList.repr
    {
      && skipList.Valid() && skipList.less == Less
      && this !in skipList.repr
    }

    ghost function State(): Kv
      requires Valid()
      reads this, skipList, skipList.repr
    {
      Kv(skipList.Map(), last, snapAt, waiting)
    }

    constructor (raft: Raft, maxRaftState: int)
      ensures Valid() && fresh(skipList.repr) && State() == EMPTY
      ensures this.raft == raft && this.maxRaftState == maxRaftState && skipList.maxLevel == 6
    {
      this.raft := raft;
      this.maxRaftState := maxRaftState;
      StringOrder();
      skipList := new SkipList(Less, MAX_LEVEL, "", "");
      last, waiting, snapAt, serialized := map[], map[], 0, Empty;
    }

    function IfRequestDuplicate(clientId: string, requestId: int): bool
      reads this
    {
      if clientId !in last then false else requestId <= last[clientId]
    }

    /** Answers a read; the client's id is recorded whatever the table had. */
    method ExecuteGet(op: Op) returns (value: string, exist: bool)
      requires Valid()
      modifies this`last
      ensures Valid() && State() == HandleGet(old(State()), op.clientId, op.requestId)
      ensures State().store == old(State().store) && last == old(last)[op.clientId := op.requestId]
      ensures exist == (op.key in State().store) && value == if exist then State().store[op.key] else ""
    {
      value := "";
      exist := false;
      var found, v := skipList.Search(op.key);
      if found {
        value, exist := v, true;
      }
      last := last[op.clientId := op.requestId];
    }

    method ExecuteWrite(op: Op, heads: nat)
      requires Valid()
      modifies this, skipList.repr
      ensures Valid() && fresh(skipList.repr - old(skipList.repr))
      ensures State() == Write(old(State()), op)
      ensures State().store == old(State().store)[op.key := op.value]
      ensures last == old(last)[op.clientId := op.requestId] && snapAt == old(snapAt) && waiting == old(waiting)
    {
      skipList.InsertSetElement(op.key, op.value, heads);
      last := last[op.clientId := op.requestId];
    }

    /** The client that waits for this index is told which request was applied there; the push waits while
        the client's channel is full. */
    method SendMessageToWaitChan(op: Op, index: int) returns (sent: bool, ending: Ending)
      requires Valid()
      modifies this`waiting
      ensures Valid() && sent == (index in waiting && ending.Finished?)
      ensures ending == if index in old(waiting) && |old(waiting)[index]| >= WAIT_CAPACITY then Waits else Finished
      ensures State() == if ending.Finished? then Notify(old(State()), index, op) else old(State())
      ensures waiting == if sent then old(waiting)[index := old(waiting)[index] + [op]] else old(waiting)
      ensures sent <==> index in old(waiting) && |old(waiting)[index]| < 2
    {
      if index !in waiting {
        return false, Finished;
      }
      if |waiting[index]| >= WAIT_CAPACITY {
        return false, Waits;
      }
      waiting := waiting[index := waiting[index] + [op]];
      return true, Finished;
    }

    /** The dump and the last snapshot index; not the table of requests. */
    ghost function SnapshotImage(): Image
      requires Valid()
      reads this, skipList, skipList.repr
    {
      var d := DumpOf(skipList.Content());
      Image(d.keys, d.vals, snapAt)
    }

    lemma DumpIsImage()
      requires Valid()
      ensures ImageOf(State(), SnapshotImage())
    {
      var ps := skipList.Content();
      assert Zip(Dump(SnapshotImage().keys, SnapshotImage().vals)) == ps;
    }

    method GetSnapshotData() returns (image: Image)
      requires Valid()
      modifies this`serialized
      ensures Valid() && State() == old(State())
      ensures image == SnapshotImage() && ImageOf(State(), image)
    {
      DumpIsImage();
      var dump := skipList.DumpFile();
      serialized := Archived(dump);
      image := Image(dump.keys, dump.vals, snapAt);
      serialized := Empty;
    }

    /** stateSize is what the persister reports at this moment. */
    method IfNeedToSendSnapshot(index: int, stateSize: int)
      requires Valid() && Sound(raft.State()) && raft !in skipList.repr
      modifies this`serialized, raft
      ensures Valid() && State() == old(State()) && Sound(raft.State())
      ensures raft.State() == if stateSize > Tenth(maxRaftState) then Compact(old(raft.State()), index, SnapshotImage())
                              else old(raft.State())
    {
      if stateSize > Tenth(maxRaftState) {
        var image := GetSnapshotData();
        CompactSteady(raft.State(), index, image);
        raft.Snapshot(index, image);
      }
    }

    /** A write that is no retry is executed. */
    method ExecuteNew(op: Op, heads: nat)
      requires Valid()
      modifies this, skipList.repr
      ensures Valid() && fresh(skipList.repr - old(skipList.repr))
      ensures State() == if Executes(old(last), op) then Write(old(State()), op) else old(State())
    {
      if !IfRequestDuplicate(op.clientId, op.requestId) {
        if op.operation == "Put" || op.operation == "Append" {
          ExecuteWrite(op, heads);
        }
      }
    }

    /** All is done but the last push when that has to wait. */
    method GetCommandFromRaft(op: Op, index: int, stateSize: int, heads: nat) returns (ending: Ending)
      requires Valid() && Sound(raft.State()) && raft !in skipList.repr
      modifies this, skipList.repr, raft
      ensures Valid() && fresh(skipList.repr - old(skipList.repr)) && Sound(raft.State())
      ensures ending == old(DeliveryEnding(CommandMsg(op, index)))
      ensures Core(State()) == Core(HandleCommand(old(State()), index, op))
      ensures var executed := && index > old(snapAt) && (op.operation == "Put" || op.operation == "Append")
                              && (op.clientId in old(last) ==> op.requestId > old(last)[op.clientId]);
              && State().store == (if executed then old(State().store)[op.key := op.value] else old(State().store))
              && last == (if executed then old(last)[op.clientId := op.requestId] else old(last))
              && snapAt == old(snapAt)
      ensures var told := index > old(snapAt) && index in old(waiting) && |old(waiting)[index]| < 2;
              waiting == if told then old(waiting)[index := old(waiting)[index] + [op]] else old(waiting)
      ensures waiting == if ending.Finished? then HandleCommand(old(State()), index, op).waiting else old(waiting)
      ensures raft.State() == if index > old(snapAt) && maxRaftState != -1 && stateSize > Tenth(maxRaftState)
                              then Compact(old(raft.State()), index, SnapshotImage()) else old(raft.State())
    {
      if index <= snapAt {
        return Finished;
      }
      ExecuteNew(op, heads);
      if maxRaftState != -1 {
        IfNeedToSendSnapshot(index, stateSize);
      }
      var sent;
      sent, ending := SendMessageToWaitChan(op, index);
    }

    /** Whether the push that ends the delivery of this message has to wait for a client to read. */
    function DeliveryEnding(m: ApplyMsg): Ending
      reads this
    {
      if Stuck(waiting, snapAt, m) then Waits else Finished
    }

    method ParseFromString(image: Image, heads: nat -> nat)
      requires Valid() && image.Image?
      modifies this`serialized, this`snapAt, skipList.repr
      ensures Valid() && fresh(skipList.repr - old(skipList.repr))
      ensures State() == old(State()).(store := Loaded(old(State()).store, image.keys), snapAt := image.lastIndex)
    {
      serialized := Archived(Dump(image.keys, image.vals));
      snapAt := image.lastIndex;
      skipList.LoadFile(serialized, heads);
      serialized := Empty;
    }

    method GetSnapshotFromRaft(image: Image, index: int, heads: nat -> nat)
      requires Valid()
      modifies this`serialized, this`snapAt, skipList.repr
      ensures Valid() && fresh(skipList.repr - old(skipList.repr))
      ensures State() == HandleSnapshot(old(State()), image, index)
    {
      if image != NoImage {
        ParseFromString(image, heads);
      }
      snapAt := index;
    }

    /** One turn of ReadRaftApplyCommandLoop. */
    method ReadOne(stateSize: int, heads: nat -> nat) returns (r: Popped<ApplyMsg>, ending: Ending)
      requires Valid() && Sound(raft.State()) && raft !in skipList.repr
      requires raft.applyChan !in skipList.repr && raft.applyChan.Valid() && raft.applyChan.CanRead()
      modifies this, skipList.repr, raft, raft.applyChan
      ensures Valid() && raft.applyChan.Valid() && fresh(skipList.repr - old(skipList.repr))
      ensures Sound(raft.State()) && raft.applyChan.closed == old(raft.applyChan.closed)
      ensures old(raft.applyChan.queue) == [] ==> r == Nothing && ending.Finished? && State() == old(State())
      ensures old(raft.applyChan.queue) != [] ==>
                && r == Value(old(raft.applyChan.queue)[0]) && raft.applyChan.queue == old(raft.applyChan.queue)[1..]
                && ending == old(DeliveryEnding(raft.applyChan.queue[0]))
                && Core(State()) == Core(Deliver(old(State()), r.value))
                && waiting == if ending.Finished? then Deliver(old(State()), r.value).waiting else old(waiting)
    {
      ending := Finished;
      r := raft.applyChan.Pop();
      match r {
        case Nothing =>
        case Value(CommandMsg(op, index)) => ending := GetCommandFromRaft(op, index, stateSize, heads(0));
        case Value(SnapshotMsg(image, _, index)) => GetSnapshotFromRaft(image, index, heads);
      }
    }

    /** The server and its node share nothing with the list, and the channel is open and empty. */
    ghost predicate Ready()
      reads this, skipList, raft, raft.applyChan
    {
      && Sound(raft.State()) && raft !in skipList.repr && raft.applyChan !in skipList.repr
      && raft.applyChan.Valid() && !raft.applyChan.closed && raft.applyChan.queue == []
    }

    /** The node puts one message into the channel and the loop reads it; the clients that wait may be others. */
    method ServeOne(m: ApplyMsg, clients: map<int, seq<Op>>, stateSize: int, heads: nat -> nat)
        returns (ending: Ending)
      requires Valid() && Ready()
      modifies this, skipList.repr, raft, raft.applyChan
      ensures Valid() && Ready() && fresh(skipList.repr - old(skipList.repr))
      ensures Core(State()) == Core(Deliver(old(State()), m))
      ensures ending == if Stuck(clients, old(snapAt), m) then Waits else Finished
    {
      ghost var before := State();
      waiting := clients;
      ghost var prepared := State();
      var thrown := raft.applyChan.Push(m);
      var r;
      r, ending := ReadOne(stateSize, heads);
      DeliverCore(prepared, before, m);
    }

    /** The messages arrive one after the other and are read by the loop; before each of them the clients
        that wait may be others. The loop reads on until a client's channel is full. */
    method Serve(ms: seq<ApplyMsg>, with: Surroundings) returns (n: nat)
      requires Valid() && Ready()
      modifies this, skipList.repr, raft, raft.applyChan
      ensures Valid() && Ready() && fresh(skipList.repr - old(skipList.repr))
      ensures n <= |ms| && Core(State()) == Core(DeliverAll(old(State()), ms[..n]))
      ensures forall i :: 0 <= i < n - 1 ==> !StuckAt(old(State()), ms, with, i)
      ensures n < |ms| ==> n > 0 && StuckAt(old(State()), ms, with, n - 1)
    {
      n := 0;
      ghost var k := State();
      var ending := Finished;
      while n < |ms| && ending.Finished?
        invariant Valid() && Ready() && fresh(skipList.repr - old(skipList.repr))
        invariant ServedTo(k, ms, with, State(), n, ending)
      {
        ghost var before := State();
        ending := ServeOne(ms[n], with.clients(n), with.sizes(n), with.heads(n));
        ServedNext(k, ms, with, before, State(), n, ending);
        n := n + 1;
      }
    }
  }

  /** A server that was in state k has read the first n messages, and waits at the last of them or not. */
  ghost predicate ServedTo(k: Kv, ms: seq<ApplyMsg>, with: Surroundings, now: Kv, n: nat, ending: Ending) {
    && n <= |ms| && Core(now) == Core(DeliverAll(k, ms[..n]))
    && (forall i :: 0 <= i < n - 1 ==> !StuckAt(k, ms, with, i))
    && (ending.Finished? || n > 0)
    && (n > 0 ==> (StuckAt(k, ms, with, n - 1) <==> !ending.Finished?))
  }

  lemma ServedNext(k: Kv, ms: seq<ApplyMsg>, with: Surroundings, before: Kv, now: Kv, n: nat, ending: Ending)
    requires ServedTo(k, ms, with, before, n, Finished) && n < |ms| && Core(now) == Core(Deliver(before, ms[n]))
    requires ending == if Stuck(with.clients(n), before.snapAt, ms[n]) then Waits else Finished
    ensures ServedTo(k, ms, with, now, n + 1, ending)
  {
    DeliverCore(before, DeliverAll(k, ms[..n]), ms[n]);
    DeliverOneMore(k, ms, n);
    assert before.snapAt == Core(before).snapAt;
  }

  /** The channel of the client that waits for this message, if any, is full. */
  predicate Stuck(waiting: map<int, seq<Op>>, snapAt: int, m: ApplyMsg) {
    m.CommandMsg? && m.index > snapAt && m.index in waiting && |waiting[m.index]| >= WAIT_CAPACITY
  }

  /** The loop waits at message i: by then its marker is that of the messages before. */
  predicate StuckAt(k: Kv, ms: seq<ApplyMsg>, with: Surroundings, i: nat)
    requires i < |ms|
  {
    Stuck(with.clients(i), DeliverAll(k, ms[..i]).snapAt, ms[i])
  }

  function Deliver(k: Kv, m: ApplyMsg): Kv {
    match m
    case CommandMsg(op, index) => HandleCommand(k, index, op)
    case SnapshotMsg(image, _, index) => HandleSnapshot(k, image, index)
  }

  function DeliverAll(k: Kv, ms: seq<ApplyMsg>): Kv {
    if ms == [] then k else Deliver(DeliverAll(k, ms[..|ms| - 1]), ms[|ms| - 1])
  }

  lemma DeliverCore(k: Kv, j: Kv, m: ApplyMsg)
    requires Core(k) == Core(j)
    ensures Core(Deliver(k, m)) == Core(Deliver(j, m))
  {}

  lemma DeliverOneMore(k: Kv, ms: seq<ApplyMsg>, i: nat)
    requires i < |ms|
    ensures DeliverAll(k, ms[..i + 1]) == Deliver(DeliverAll(k, ms[..i]), ms[i])
  {
    assert ms[..i + 1][..i] == ms[..i];
  }

  /** Two servers with the same map and marker make the same snapshot, whatever their towers look like. */
  lemma SameImage(a: KvServer, b: KvServer)
    requires a.Valid() && b.Valid() && Core(a.State()) == Core(b.State())
    ensures a.SnapshotImage() == b.SnapshotImage()
  {
    SortedUnique(Less, a.skipList.Content(), b.skipList.Content());
  }

  /** A new server, with a node and a channel of its own. */
  method NewServer(me: nat, peers: nat, maxRaftState: int) returns (s: KvServer)
    requires me < peers
    ensures s.Valid() && s.State() == EMPTY && s.Ready() && s.raft.applyChan.cap == 2
    ensures fresh(s) && fresh(s.raft) && fresh(s.raft.applyChan) && fresh(s.skipList.repr)
  {
    var applyChan := new Channel<ApplyMsg>(2);
    var raft := new Raft(me, peers, applyChan);
    s := new KvServer(raft, maxRaftState);
  }

  /** What the surroundings of a server decide: the sizes its persister reports, the coins its towers draw,
      and the clients that wait when a message is read. */
  datatype Surroundings = Surroundings(sizes: nat -> int, heads: nat -> nat -> nat, clients: nat -> map<int, seq<Op>>)

  /** A new server after it was given the messages, and how many of them it read, and the image of its store. */
  method Served(me: nat, peers: nat, maxRaftState: int, ms: seq<ApplyMsg>, with: Surroundings)
    returns (s: KvServer, n: nat, image: Image)
    requires me < peers
    ensures s.Valid() && fresh(s) && fresh(s.skipList.repr)
    ensures n <= |ms| && Core(s.State()) == Core(DeliverAll(EMPTY, ms[..n])) && image == s.SnapshotImage()
    ensures n == |ms| || (n > 0 && StuckAt(EMPTY, ms, with, n - 1))
  {
    s := NewServer(me, peers, maxRaftState);
    n := s.Serve(ms, with);
    image := s.GetSnapshotData();
  }

  /** Replica determinism: two new servers are given the same messages, whatever their surroundings do. A
      server that stops early waits for a client. When both have read as many messages they have the same
      map, table of requests and marker, and make the same snapshot. */
  method ReplicasAgree(ms: seq<ApplyMsg>, maxRaftState: int, p: Surroundings, q: Surroundings)
    returns (a: KvServer, m: nat, b: KvServer, n: nat, x: Image, y: Image)
    ensures a.Valid() && b.Valid() && fresh(a) && fresh(b)
    ensures m <= |ms| && Core(a.State()) == Core(DeliverAll(EMPTY, ms[..m]))
    ensures n <= |ms| && Core(b.State()) == Core(DeliverAll(EMPTY, ms[..n]))
    ensures m == |ms| || (m > 0 && StuckAt(EMPTY, ms, p, m - 1))
    ensures n == |ms| || (n > 0 && StuckAt(EMPTY, ms, q, n - 1))
    ensures x == a.SnapshotImage() && y == b.SnapshotImage()
    ensures m == n ==> Core(a.State()) == Core(b.State()) && x == y
  {
    a, m, x := Served(0, 2, maxRaftState, ms, p);
    b, n, y := Served(1, 2, maxRaftState, ms, q);
    if m == n { SameImage(a, b); }
  }
}
