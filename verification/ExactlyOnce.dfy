/** Exactly-once on the apply path: what the duplicate table makes of a sequence of delivered commands.
    The Get handler and snapshots, which also touch the table or the store, are not part of it. */
module ExactlyOnce {
  import opened KvTypes
  import opened KvStore

  /** The server after it was given the commands at indices 1, 2, ... */
  function Replay(ops: seq<Op>): Kv {
    if ops == [] then EMPTY else HandleCommand(Replay(ops[..|ops| - 1]), |ops|, ops[|ops| - 1])
  }

  /** The command at position i changes the store. */
  predicate ExecutedAt(ops: seq<Op>, i: nat)
    requires i < |ops|
  {
    Executes(Replay(ops[..i]).last, ops[i])
  }

  predicate SameRequest(a: Op, b: Op) {
    IsWrite(a) && IsWrite(b) && a.clientId == b.clientId && a.requestId == b.requestId
  }

  /** The first time this request is in the log. */
  predicate FirstTime(ops: seq<Op>, i: nat)
    requires i < |ops|
  {
    IsWrite(ops[i]) && forall j :: 0 <= j < i ==> !SameRequest(ops[j], ops[i])
  }

  /** A client's new requests have larger ids than its earlier ones. */
  predicate NewIdsIncrease(ops: seq<Op>) {
    forall i, j :: 0 <= i < j < |ops| && IsWrite(ops[i]) && FirstTime(ops, j) && ops[i].clientId == ops[j].clientId ==>
      ops[i].requestId < ops[j].requestId
  }

  // ------------------------------------------------------- what the table holds

  /** The client's request with that id was executed at position i. */
  predicate ExecutedFor(ops: seq<Op>, i: nat, client: string, id: int) {
    i < |ops| && ExecutedAt(ops, i) && ops[i].clientId == client && ops[i].requestId == id
  }

  predicate CoveredBy(last: map<string, int>, op: Op) {
    op.clientId in last && op.requestId <= last[op.clientId]
  }

  /** The table holds each client's last executed id, which is its largest. */
  ghost predicate TableIs(last: map<string, int>, ops: seq<Op>) {
    && (forall i: nat {:trigger ExecutedAt(ops, i)} :: i < |ops| && ExecutedAt(ops, i) ==> CoveredBy(last, ops[i]))
    && (forall c {:trigger last[c]} :: c in last ==>
          exists i: nat {:trigger ExecutedFor(ops, i, c, last[c])} :: ExecutedFor(ops, i, c, last[c]))
  }

  lemma SnapAtStays(ops: seq<Op>)
    ensures Replay(ops).snapAt == 0
  {
    if ops != [] { SnapAtStays(ops[..|ops| - 1]); }
  }

  lemma OneMoreOp(ops: seq<Op>, op: Op)
    ensures var k := Replay(ops); var d := Replay(ops + [op]);
            && d.store == (if Executes(k.last, op) then Write(k, op) else k).store
            && d.last == (if Executes(k.last, op) then Write(k, op) else k).last
  {
    SnapAtStays(ops);
    assert (ops + [op])[..|ops|] == ops;
  }

  lemma PrefixSame(ops: seq<Op>, op: Op, i: nat)
    requires i < |ops|
    ensures ExecutedAt(ops + [op], i) == ExecutedAt(ops, i) && FirstTime(ops + [op], i) == FirstTime(ops, i)
  {
    assert (ops + [op])[..i] == ops[..i];
  }

  lemma LastSame(ops: seq<Op>, op: Op)
    ensures ExecutedAt(ops + [op], |ops|) == Executes(Replay(ops).last, op)
  {
    assert (ops + [op])[..|ops|] == ops;
  }

  lemma {:induction false} TableHolds(ops: seq<Op>)
    ensures TableIs(Replay(ops).last, ops)
  {
    if ops != [] {
      var front, op := ops[..|ops| - 1], ops[|ops| - 1];
      assert ops == front + [op];
      TableHolds(front);
      TableOneMore(front, op);
    }
  }

  /** Every executed id is covered by the table after one more command. */
  lemma TableCoversOneMore(ops: seq<Op>, op: Op, i: nat)
    requires TableIs(Replay(ops).last, ops)
    requires i <= |ops| && ExecutedAt(ops + [op], i)
    ensures CoveredBy(Replay(ops + [op]).last, (ops + [op])[i])
  {
    OneMoreOp(ops, op);
    if i < |ops| { PrefixSame(ops, op, i); } else { LastSame(ops, op); }
  }

  /** Every id in the table was executed, after one more command. */
  lemma TableExactOneMore(ops: seq<Op>, op: Op, c: string) returns (i: nat)
    requires TableIs(Replay(ops).last, ops)
    requires c in Replay(ops + [op]).last
    ensures var more, last := ops + [op], Replay(ops + [op]).last;
            ExecutedFor(more, i, c, last[c])
  {
    var before := Replay(ops).last;
    OneMoreOp(ops, op);
    if Executes(before, op) && c == op.clientId {
      LastSame(ops, op);
      i := |ops|;
    } else {
      var j: nat :| ExecutedFor(ops, j, c, before[c]);
      PrefixSame(ops, op, j);
      i := j;
    }
  }

  lemma TableOneMore(ops: seq<Op>, op: Op)
    requires TableIs(Replay(ops).last, ops)
    ensures TableIs(Replay(ops + [op]).last, ops + [op])
  {
    var more, last := ops + [op], Replay(ops + [op]).last;
    forall i: nat | i < |more| && ExecutedAt(more, i) ensures CoveredBy(last, more[i]) {
      TableCoversOneMore(ops, op, i);
    }
    forall c | c in last ensures exists i: nat {:trigger ExecutedFor(more, i, c, last[c])} ::
        ExecutedFor(more, i, c, last[c]) {
      var i := TableExactOneMore(ops, op, c);
    }
  }

  lemma PrefixExecuted(ops: seq<Op>, i: nat, j: nat)
    requires i < j <= |ops|
    ensures ExecutedAt(ops[..j], i) == ExecutedAt(ops, i)
  {
    assert ops[..j][..i] == ops[..i];
  }

  // ------------------------------------------------------------------ theorems

  /** The executed ids of one client strictly increase, for every sequence of commands. */
  lemma ExecutedIdsIncrease(ops: seq<Op>, i: nat, j: nat)
    requires i < j < |ops| && ops[i].clientId == ops[j].clientId
    requires ExecutedAt(ops, i) && ExecutedAt(ops, j)
    ensures ops[i].requestId < ops[j].requestId
  {
    TableHolds(ops[..j]);
    PrefixExecuted(ops, i, j);
  }

  /** No request executes twice. */
  lemma NeverTwice(ops: seq<Op>, i: nat, j: nat)
    requires i < j < |ops| && SameRequest(ops[i], ops[j]) && ExecutedAt(ops, i)
    ensures !ExecutedAt(ops, j)
  {
    if ExecutedAt(ops, j) { ExecutedIdsIncrease(ops, i, j); }
  }

  lemma {:induction false} FirstsExecute(ops: seq<Op>, i: nat)
    requires NewIdsIncrease(ops) && i < |ops|
    ensures ExecutedAt(ops, i) <==> FirstTime(ops, i)
    decreases i
  {
    TableHolds(ops[..i]);
    if FirstTime(ops, i) {
      forall j | 0 <= j < i && ExecutedAt(ops[..i], j) ensures IsWrite(ops[j]) {}
    } else if IsWrite(ops[i]) {
      var j :| 0 <= j < i && SameRequest(ops[j], ops[i]);
      var f := Earliest(ops, j);
      FirstsExecute(ops, f);
      PrefixExecuted(ops, f, i);
    }
  }

  lemma {:induction false} Earliest(ops: seq<Op>, j: nat) returns (f: nat)
    requires j < |ops| && IsWrite(ops[j])
    ensures f <= j && FirstTime(ops, f) && SameRequest(ops[f], ops[j])
  {
    if FirstTime(ops, j) {
      f := j;
    } else {
      var i :| 0 <= i < j && SameRequest(ops[i], ops[j]);
      f := Earliest(ops, i);
    }
  }

  /** Exactly once: every request executes at its first occurrence and never again, if and only if each
      client's new requests come with increasing ids. */
  lemma ExactlyOnceIff(ops: seq<Op>)
    ensures NewIdsIncrease(ops) <==> forall i :: 0 <= i < |ops| ==> (ExecutedAt(ops, i) <==> FirstTime(ops, i))
  {
    if NewIdsIncrease(ops) {
      forall i | 0 <= i < |ops| ensures ExecutedAt(ops, i) <==> FirstTime(ops, i) {
        FirstsExecute(ops, i);
      }
    }
    if forall i :: 0 <= i < |ops| ==> (ExecutedAt(ops, i) <==> FirstTime(ops, i)) {
      forall i, j | 0 <= i < j < |ops| && IsWrite(ops[i]) && FirstTime(ops, j) && ops[i].clientId == ops[j].clientId
        ensures ops[i].requestId < ops[j].requestId
      {
        var f := Earliest(ops, i);
        ExecutedIdsIncrease(ops, f, j);
      }
    }
  }

  // --------------------------------------------------- the log without retries

  /** The first occurrences, in the order of the log. */
  function Firsts(ops: seq<Op>): seq<Op> {
    if ops == [] then []
    else
      var n := |ops| - 1;
      if FirstTime(ops, n) then Firsts(ops[..n]) + [ops[n]] else Firsts(ops[..n])
  }

  /** A store without a duplicate table, given each write once. */
  function WriteAll(store: map<string, string>, ops: seq<Op>): map<string, string> {
    if ops == [] then store
    else WriteAll(store, ops[..|ops| - 1])[ops[|ops| - 1].key := ops[|ops| - 1].value]
  }

  lemma IncreaseOnPrefix(ops: seq<Op>, op: Op)
    requires NewIdsIncrease(ops + [op])
    ensures NewIdsIncrease(ops)
  {
    forall i, j | 0 <= i < j < |ops| && IsWrite(ops[i]) && FirstTime(ops, j) && ops[i].clientId == ops[j].clientId
      ensures ops[i].requestId < ops[j].requestId
    {
      PrefixSame(ops, op, j);
      assert (ops + [op])[i] == ops[i] && (ops + [op])[j] == ops[j];
    }
  }

  lemma OneMoreFirst(ops: seq<Op>, op: Op)
    ensures Firsts(ops + [op]) == if FirstTime(ops + [op], |ops|) then Firsts(ops) + [op] else Firsts(ops)
  {
    assert (ops + [op])[..|ops|] == ops;
  }

  lemma OneMoreWrite(store: map<string, string>, ops: seq<Op>, op: Op)
    ensures WriteAll(store, ops + [op]) == WriteAll(store, ops)[op.key := op.value]
  {
    assert (ops + [op])[..|ops|] == ops;
  }

  /** Retries are invisible: the final map is that of the log with the retries deleted, written by a
      store that has no duplicate table. */
  lemma {:induction false} RetriesDeleted(ops: seq<Op>)
    requires NewIdsIncrease(ops)
    ensures Replay(ops).store == WriteAll(map[], Firsts(ops))
  {
    if ops != [] {
      var front, op := ops[..|ops| - 1], ops[|ops| - 1];
      assert ops == front + [op];
      IncreaseOnPrefix(front, op);
      RetriesDeleted(front);
      FirstsExecute(ops, |front|);
      LastSame(front, op);
      OneMoreOp(front, op);
      OneMoreFirst(front, op);
      OneMoreWrite(map[], Firsts(front), op);
    }
  }
}
