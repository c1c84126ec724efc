/** The key-value state machine of kvServer.cc as values: what one delivered message does. */
module KvStore {
  import opened KvTypes
  import opened SkipKeys
  import opened SkipLists

  /** waiting has one queue for each log index a client request waits for. */
  datatype Kv = Kv(store: map<string, string>, last: map<string, int>, snapAt: int, waiting: map<int, seq<Op>>)

  /** What a new server holds. */
  const EMPTY := Kv(map[], map[], 0, map[])

  predicate IsWrite(op: Op) {
    op.operation == "Put" || op.operation == "Append"
  }

  predicate Duplicate(last: map<string, int>, op: Op) {
    op.clientId in last && op.requestId <= last[op.clientId]
  }

  /** Append overwrites, exactly like Put. */
  predicate Executes(last: map<string, int>, op: Op) {
    IsWrite(op) && !Duplicate(last, op)
  }

  function Write(k: Kv, op: Op): Kv {
    k.(store := k.store[op.key := op.value], last := k.last[op.clientId := op.requestId])
  }

  function Notify(k: Kv, index: int, op: Op): Kv {
    if index in k.waiting then k.(waiting := k.waiting[index := k.waiting[index] + [op]]) else k
  }

  function HandleCommand(k: Kv, index: int, op: Op): Kv {
    if index <= k.snapAt then k
    else Notify(if Executes(k.last, op) then Write(k, op) else k, index, op)
  }

  /** Answering a read changes the table only. */
  function HandleGet(k: Kv, client: string, id: int): Kv {
    k.(last := k.last[client := id])
  }

  /** The keys of the image are added with themselves as values; what was stored stays. */
  function HandleSnapshot(k: Kv, image: Image, index: int): Kv {
    match image
    case NoImage => k.(snapAt := index)
    case Image(keys, _, _) => k.(store := Loaded(k.store, keys), snapAt := index)
  }

  /** A write behind the marker, Put or Append, whose id is larger than the client's last one is executed: the key
      has its value and the client its id. Nothing else that is delivered changes the store or the table. */
  lemma CommandExecutes(k: Kv, index: int, op: Op)
    ensures var t := HandleCommand(k, index, op);
            var executed := && index > k.snapAt && (op.operation == "Put" || op.operation == "Append")
                            && (op.clientId in k.last ==> op.requestId > k.last[op.clientId]);
            && t.store == (if executed then k.store[op.key := op.value] else k.store)
            && t.last == (if executed then k.last[op.clientId := op.requestId] else k.last)
            && t.snapAt == k.snapAt
  {}

  /** Every delivery behind the marker, of a write, a retry or a read, adds this request to the channel of its
      index if a client waits there, and touches no other channel. */
  lemma ClientTold(k: Kv, index: int, op: Op)
    ensures var t := HandleCommand(k, index, op);
            && t.waiting.Keys == k.waiting.Keys
            && (forall i :: i in k.waiting && i != index ==> t.waiting[i] == k.waiting[i])
            && (index in k.waiting ==>
                  t.waiting[index] == if index > k.snapAt then k.waiting[index] + [op] else k.waiting[index])
  {}

  /** A snapshot adds the keys that were not there, with themselves as values, and moves the marker; what was
      stored, the table and the channels stay. */
  lemma SnapshotLoads(k: Kv, image: Image, index: int)
    ensures var t := HandleSnapshot(k, image, index);
            && t.snapAt == index && t.last == k.last && t.waiting == k.waiting
            && (image.NoImage? ==> t.store == k.store)
            && (forall x :: x in k.store ==> x in t.store && t.store[x] == k.store[x])
            && (forall x :: x !in k.store ==> (x in t.store <==> image.Image? && x in image.keys))
            && (forall x :: x in t.store && x !in k.store ==> t.store[x] == x)
  {}

  /** Everything a server holds except the queues of the clients that wait for an index. */
  function Core(k: Kv): Kv {
    k.(waiting := map[])
  }

  /** The clients leave no trace in the rest. */
  lemma CommandCore(k: Kv, j: Kv, index: int, op: Op)
    requires Core(k) == Core(j)
    ensures Core(HandleCommand(k, index, op)) == Core(HandleCommand(j, index, op))
  {}

  // -------------------------------------------------------------- snapshots

  /** The snapshot that a server in state k makes: the dump of its store, and its last snapshot index. */
  ghost predicate ImageOf(k: Kv, data: Image) {
    && data.Image? && |data.keys| == |data.vals| && data.lastIndex == k.snapAt
    && Sorted(Less, Zip(Dump(data.keys, data.vals))) && MapOf(Zip(Dump(data.keys, data.vals))) == k.store
  }

  lemma ImageKeys(k: Kv, data: Image)
    requires ImageOf(k, data)
    ensures forall x :: x in data.keys <==> x in k.store
  {
    var ps := Zip(Dump(data.keys, data.vals));
    StringOrder();
    MapOfSorted(Less, ps);
    forall x ensures x in data.keys <==> x in k.store {
      if x in data.keys {
        var i :| 0 <= i < |data.keys| && data.keys[i] == x;
        assert Has(ps, x, ps[i].1);
      }
      if x in k.store {
        assert Has(ps, x, k.store[x]);
      }
    }
  }

  lemma LoadedIff(m: map<string, string>, keys: seq<string>, store: map<string, string>)
    requires forall x :: x in keys <==> x in store
    ensures Loaded(m, keys) == store <==>
            && (forall x :: x in m ==> x in store && store[x] == m[x])
            && (forall x :: x in store && x !in m ==> store[x] == x)
  {
    var l := Loaded(m, keys);
    if && (forall x :: x in m ==> x in store && store[x] == m[x])
       && (forall x :: x in store && x !in m ==> store[x] == x)
    {
      assert l == store;
    }
  }

  /** A server that loads the snapshot of another one then agrees with it exactly when what it had before
      agrees with the other store, every key it did not have is its own value there, and its table of
      requests is the other one's. */
  lemma SnapshotAgreesIff(source: Kv, receiver: Kv, data: Image, index: int)
    requires ImageOf(source, data)
    ensures var k := HandleSnapshot(receiver, data, index);
            && (k.store == source.store <==>
                  && (forall x :: x in receiver.store ==> x in source.store && source.store[x] == receiver.store[x])
                  && (forall x :: x in source.store && x !in receiver.store ==> source.store[x] == x))
            && (k.last == source.last <==> receiver.last == source.last)
  {
    ImageKeys(source, data);
    LoadedIff(receiver.store, data.keys, source.store);
  }

  // ------------------------------------------------------------ string order

  /** operator< of std::string. */
  predicate Less(a: string, b: string) {
    b != [] && (a == [] || a[0] < b[0] || (a[0] == b[0] && Less(a[1..], b[1..])))
  }

  lemma {:induction false} LessTransitive(a: string, b: string, c: string)
    requires Less(a, b) && Less(b, c)
    ensures Less(a, c)
  {
    if a != [] && a[0] == b[0] == c[0] { LessTransitive(a[1..], b[1..], c[1..]); }
  }

  lemma {:induction false} LessTrichotomy(a: string, b: string)
    ensures !Less(a, a)
    ensures Less(a, b) || a == b || Less(b, a)
  {
    if a != [] { LessTrichotomy(a[1..], if b == [] then b else b[1..]); }
    if a != [] && b != [] && a[0] == b[0] { assert a == [a[0]] + a[1..] && b == [b[0]] + b[1..]; }
  }

  /** Strings are ordered as the skip list asks. */
  lemma StringOrder()
    ensures StrictOrder(Less)
  {
    forall a: string, b: string, c: string | Less(a, b) && Less(b, c) ensures Less(a, c) {
      LessTransitive(a, b, c);
    }
    forall a: string, b: string ensures !Less(a, a) && (Less(a, b) || a == b || Less(b, a)) {
      LessTrichotomy(a, b);
    }
  }
}
