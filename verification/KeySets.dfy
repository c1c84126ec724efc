/** What snapshots leave of a server: the set of its keys is that of the commands, although a loaded snapshot
    has other values, and the table of requests is not in it. */
module KeySets {
  import opened KvTypes
  import opened KvStore
  import opened ExactlyOnce
  import opened SkipLists

  /** The keys that the commands write. */
  function KeysOf(ops: seq<Op>): set<string> {
    set i | 0 <= i < |ops| && IsWrite(ops[i]) :: ops[i].key
  }

  /** A request that comes again writes the same key. */
  predicate RetriesRepeat(ops: seq<Op>) {
    forall i, j :: 0 <= i < j < |ops| && SameRequest(ops[i], ops[j]) ==> ops[i].key == ops[j].key
  }

  predicate Fair(ops: seq<Op>) {
    NewIdsIncrease(ops) && RetriesRepeat(ops)
  }

  predicate WrittenBy(ops: seq<Op>, client: string, id: int) {
    exists i :: 0 <= i < |ops| && IsWrite(ops[i]) && ops[i].clientId == client && ops[i].requestId == id
  }

  /** Every id in the table comes from one of the commands. */
  predicate FromLog(last: map<string, int>, ops: seq<Op>) {
    forall client {:trigger last[client]} :: client in last ==> WrittenBy(ops, client, last[client])
  }

  /** A server that has handled the commands, or installed snapshots that cover them. */
  predicate KvIs(k: Kv, ops: seq<Op>) {
    FromLog(k.last, ops) && (Fair(ops) ==> k.store.Keys == KeysOf(ops))
  }

  ghost predicate ImageIs(data: Image, ops: seq<Op>) {
    data.Image? && (Fair(ops) ==> forall x :: x in data.keys <==> x in KeysOf(ops))
  }

  /** The one sequence of commands is the beginning of the other. */
  predicate Begins(x: seq<Op>, y: seq<Op>) {
    |x| <= |y| && forall i {:trigger x[i]} {:trigger y[i]} :: 0 <= i < |x| ==> x[i] == y[i]
  }

  lemma FairBegins(x: seq<Op>, y: seq<Op>)
    requires Begins(x, y) && Fair(y)
    ensures Fair(x)
  {
    forall i, j | 0 <= i < j < |x| && IsWrite(x[i]) && FirstTime(x, j) && x[i].clientId == x[j].clientId
      ensures x[i].requestId < x[j].requestId
    {
      assert FirstTime(y, j);
    }
  }

  lemma KeysBegin(x: seq<Op>, y: seq<Op>)
    requires Begins(x, y)
    ensures KeysOf(x) <= KeysOf(y)
  {
    forall k | k in KeysOf(x) ensures k in KeysOf(y) {
      var i :| 0 <= i < |x| && IsWrite(x[i]) && x[i].key == k;
      assert y[i] == x[i];
    }
  }

  lemma FromLogMore(last: map<string, int>, x: seq<Op>, y: seq<Op>)
    requires FromLog(last, x) && Begins(x, y)
    ensures FromLog(last, y)
  {
    forall client | client in last ensures WrittenBy(y, client, last[client]) {
      var i :| 0 <= i < |x| && IsWrite(x[i]) && x[i].clientId == client && x[i].requestId == last[client];
      assert y[i] == x[i];
    }
  }

  lemma KeysOneMore(ops: seq<Op>, op: Op)
    ensures KeysOf(ops + [op]) == KeysOf(ops) + if IsWrite(op) then {op.key} else {}
  {
    var more := ops + [op];
    KeysBegin(ops, more);
    forall k | k in KeysOf(more) ensures k in KeysOf(ops) || (IsWrite(op) && k == op.key) {
      var i :| 0 <= i < |more| && IsWrite(more[i]) && more[i].key == k;
      if i < |ops| { assert ops[i] == more[i]; }
    }
    if IsWrite(op) { assert more[|ops|] == op; }
  }

  /** What the table takes for a retry is one, so its key has been written. */
  lemma RetryKnown(ops: seq<Op>, op: Op, last: map<string, int>)
    requires Fair(ops + [op]) && FromLog(last, ops) && IsWrite(op) && Duplicate(last, op)
    ensures op.key in KeysOf(ops)
  {
    var more, n := ops + [op], |ops|;
    assert WrittenBy(ops, op.clientId, last[op.clientId]);
    var i :| 0 <= i < n && IsWrite(ops[i]) && ops[i].clientId == op.clientId && ops[i].requestId == last[op.clientId];
    assert more[i] == ops[i] && more[n] == op;
    assert !FirstTime(more, n);
    var j :| 0 <= j < n && SameRequest(more[j], more[n]);
    assert more[j] == ops[j];
  }

  lemma CommandTable(last: map<string, int>, ops: seq<Op>, op: Op)
    requires FromLog(last, ops) && IsWrite(op)
    ensures FromLog(last[op.clientId := op.requestId], ops + [op])
  {
    var more := ops + [op];
    FromLogMore(last, ops, more);
    assert more[|ops|] == op;
    assert WrittenBy(more, op.clientId, op.requestId);
  }

  lemma CommandSet(keys: set<string>, last: map<string, int>, ops: seq<Op>, op: Op)
    requires FromLog(last, ops) && (Fair(ops) ==> keys == KeysOf(ops)) && Fair(ops + [op])
    ensures (if Executes(last, op) then keys + {op.key} else keys) == KeysOf(ops + [op])
  {
    FairBegins(ops, ops + [op]);
    KeysOneMore(ops, op);
    if IsWrite(op) && Duplicate(last, op) { RetryKnown(ops, op, last); }
  }

  /** A command more. */
  lemma CommandKeys(k: Kv, ops: seq<Op>, index: int, op: Op)
    requires KvIs(k, ops) && index > k.snapAt
    ensures KvIs(HandleCommand(k, index, op), ops + [op])
  {
    if Executes(k.last, op) { CommandTable(k.last, ops, op); } else { FromLogMore(k.last, ops, ops + [op]); }
    if Fair(ops + [op]) {
      CommandSet(k.store.Keys, k.last, ops, op);
      assert HandleCommand(k, index, op).store.Keys == if Executes(k.last, op) then k.store.Keys + {op.key}
          else k.store.Keys;
    }
  }

  lemma LoadedKeys(m: map<string, string>, keys: seq<string>, x: seq<Op>, y: seq<Op>, all: seq<Op>)
    requires m.Keys == KeysOf(x) && (forall k :: k in keys <==> k in KeysOf(y))
    requires KeysOf(x) <= KeysOf(all) && KeysOf(y) <= KeysOf(all) && (all == x || all == y)
    ensures Loaded(m, keys).Keys == KeysOf(all)
  {}

  /** An installed snapshot, newer or older than what has been handled. */
  lemma SnapshotKeys(k: Kv, x: seq<Op>, data: Image, index: int, y: seq<Op>, all: seq<Op>)
    requires KvIs(k, x) && ImageIs(data, y) && Begins(x, all) && Begins(y, all) && (all == x || all == y)
    ensures KvIs(HandleSnapshot(k, data, index), all)
  {
    FromLogMore(k.last, x, all);
    if Fair(all) {
      FairBegins(x, all);
      FairBegins(y, all);
      KeysBegin(x, all);
      KeysBegin(y, all);
      LoadedKeys(k.store, data.keys, x, y, all);
    }
  }

  /** The snapshot of such a server. */
  lemma ImageKeysOf(k: Kv, ops: seq<Op>, data: Image)
    requires KvIs(k, ops) && ImageOf(k, data)
    ensures ImageIs(data, ops)
  {
    ImageKeys(k, data);
  }
}
