/** Exactly-once with the Get handler: answering a read sets the client's id in the table of requests, also
    to a lower one, and it happens at one server only, outside the sequence of delivered commands. */
module ReadRequests {
  import opened KvTypes
  import opened KvStore
  import opened ExactlyOnce

  /** At one server a command is delivered, or a read is answered. */
  datatype Happening = Delivered(op: Op) | Answered(clientId: string, requestId: int)

  /** The server after all that happened. */
  function Serving(hs: seq<Happening>): Kv {
    if hs == [] then EMPTY
    else
      var k := Serving(hs[..|hs| - 1]);
      match hs[|hs| - 1]
      case Delivered(op) => HandleCommand(k, |hs|, op)
      case Answered(client, id) => HandleGet(k, client, id)
  }

  /** The delivered commands. */
  function Commands(hs: seq<Happening>): seq<Op> {
    if hs == [] then []
    else Commands(hs[..|hs| - 1]) + (if hs[|hs| - 1].Delivered? then [hs[|hs| - 1].op] else [])
  }

  predicate WriteAt(hs: seq<Happening>, i: nat) {
    i < |hs| && hs[i].Delivered? && IsWrite(hs[i].op)
  }

  /** The command at position i changes the store. */
  predicate DoneAt(hs: seq<Happening>, i: nat) {
    i < |hs| && hs[i].Delivered? && Executes(Serving(hs[..i]).last, hs[i].op)
  }

  /** The first time this request is delivered. */
  predicate NewAt(hs: seq<Happening>, i: nat) {
    WriteAt(hs, i) && forall j :: 0 <= j < i && hs[j].Delivered? ==> !SameRequest(hs[j].op, hs[i].op)
  }

  function ClientOf(h: Happening): string {
    if h.Delivered? then h.op.clientId else h.clientId
  }

  function IdOf(h: Happening): int {
    if h.Delivered? then h.op.requestId else h.requestId
  }

  /** A read of this client was answered, or a new write of its was delivered. */
  predicate Marks(hs: seq<Happening>, i: nat, client: string) {
    i < |hs| && ClientOf(hs[i]) == client && (hs[i].Answered? || NewAt(hs, i))
  }

  /** The client's last read or new write before position n, or -1. */
  function LastMark(hs: seq<Happening>, n: nat, client: string): (m: int)
    requires n <= |hs|
    ensures -1 <= m < n && (m >= 0 ==> Marks(hs, m, client))
    ensures forall j :: m < j < n ==> !Marks(hs, j, client)
  {
    if n == 0 then -1 else if Marks(hs, n - 1, client) then n - 1 else LastMark(hs, n - 1, client)
  }

  /** A new write has a larger id than the client's last read or new write before it; a retry does not. */
  predicate OrderlyAt(hs: seq<Happening>, i: nat)
    requires WriteAt(hs, i)
  {
    var m := LastMark(hs, i, hs[i].op.clientId);
    NewAt(hs, i) <==> m == -1 || IdOf(hs[m]) < hs[i].op.requestId
  }

  ghost predicate Orderly(hs: seq<Happening>) {
    forall i: nat {:trigger WriteAt(hs, i)} :: WriteAt(hs, i) ==> OrderlyAt(hs, i)
  }

  ghost predicate ExactlyOnceTo(hs: seq<Happening>, n: nat) {
    forall i: nat {:trigger DoneAt(hs, i)} {:trigger NewAt(hs, i)} :: i < n ==> (DoneAt(hs, i) <==> NewAt(hs, i))
  }

  // ------------------------------------------------------- what the table holds

  lemma NoMarker(hs: seq<Happening>)
    ensures Serving(hs).snapAt == 0
  {
    if hs != [] { NoMarker(hs[..|hs| - 1]); }
  }

  lemma NextServing(hs: seq<Happening>, n: nat)
    requires n < |hs|
    ensures var k, d := Serving(hs[..n]), Serving(hs[..n + 1]);
            match hs[n]
            case Delivered(op) => d.store == (if DoneAt(hs, n) then k.store[op.key := op.value] else k.store)
                                  && d.last == (if DoneAt(hs, n) then k.last[op.clientId := op.requestId] else k.last)
            case Answered(client, id) => d.store == k.store && d.last == k.last[client := id]
  {
    NoMarker(hs[..n]);
    assert hs[..n + 1][..n] == hs[..n];
  }

  /** The table names the client's last read or new write, as long as just the new writes are executed. */
  ghost predicate TableMarks(hs: seq<Happening>, n: nat, client: string)
    requires n <= |hs|
  {
    var last, m := Serving(hs[..n]).last, LastMark(hs, n, client);
    && (client in last <==> m >= 0)
    && (m >= 0 ==> client in last && last[client] == IdOf(hs[m]))
  }

  lemma TableNext(hs: seq<Happening>, n: nat, client: string)
    requires n < |hs| && TableMarks(hs, n, client) && (DoneAt(hs, n) <==> NewAt(hs, n))
    ensures TableMarks(hs, n + 1, client)
  {
    NextServing(hs, n);
    assert LastMark(hs, n + 1, client) == if Marks(hs, n, client) then n else LastMark(hs, n, client);
  }

  lemma {:induction false} TableNames(hs: seq<Happening>, n: nat, client: string)
    requires n <= |hs| && ExactlyOnceTo(hs, n)
    ensures TableMarks(hs, n, client)
  {
    if n > 0 {
      TableNames(hs, n - 1, client);
      TableNext(hs, n - 1, client);
    }
  }

  lemma DoneIff(hs: seq<Happening>, i: nat)
    requires WriteAt(hs, i) && ExactlyOnceTo(hs, i)
    ensures (DoneAt(hs, i) <==> NewAt(hs, i)) <==> OrderlyAt(hs, i)
  {
    TableNames(hs, i, hs[i].op.clientId);
  }

  lemma {:induction false} OrderlyOnce(hs: seq<Happening>, n: nat)
    requires Orderly(hs) && n <= |hs|
    ensures ExactlyOnceTo(hs, n)
  {
    if n > 0 {
      OrderlyOnce(hs, n - 1);
      if WriteAt(hs, n - 1) { DoneIff(hs, n - 1); }
    }
  }

  // ------------------------------------------------------------------ theorems

  /** With reads, every request executes at its first delivery and never again, if and only if each new
      write has a larger id than the client's last read or new write, and no retry has. */
  lemma ExactlyOnceWithReads(hs: seq<Happening>)
    ensures Orderly(hs) <==> ExactlyOnceTo(hs, |hs|)
  {
    if Orderly(hs) { OrderlyOnce(hs, |hs|); }
    if ExactlyOnceTo(hs, |hs|) {
      forall i: nat | WriteAt(hs, i) ensures OrderlyAt(hs, i) { DoneIff(hs, i); }
    }
  }

  lemma CommandAt(hs: seq<Happening>, op: Op)
    ensures op in Commands(hs) <==> Delivered(op) in hs
  {
    if hs != [] {
      CommandAt(hs[..|hs| - 1], op);
      assert hs == hs[..|hs| - 1] + [hs[|hs| - 1]];
    }
  }

  lemma CommandsNext(hs: seq<Happening>, n: nat)
    requires n < |hs|
    ensures Commands(hs[..n + 1]) == if hs[n].Delivered? then Commands(hs[..n]) + [hs[n].op] else Commands(hs[..n])
  {
    assert hs[..n + 1][..n] == hs[..n];
  }

  /** A request is new among the happenings exactly when it is new among the commands. */
  lemma NewIsFirst(hs: seq<Happening>, n: nat)
    requires n < |hs| && hs[n].Delivered?
    ensures NewAt(hs, n) <==> FirstTime(Commands(hs[..n]) + [hs[n].op], |Commands(hs[..n])|)
  {
    var before, op := Commands(hs[..n]), hs[n].op;
    var more := before + [op];
    if NewAt(hs, n) {
      forall k | 0 <= k < |before| ensures !SameRequest(more[k], op) {
        CommandAt(hs[..n], before[k]);
        var j :| 0 <= j < n && hs[..n][j] == Delivered(before[k]);
        assert hs[j] == hs[..n][j];
      }
    }
    if FirstTime(more, |before|) {
      forall j | 0 <= j < n && hs[j].Delivered? ensures !SameRequest(hs[j].op, op) {
        assert hs[..n][j] == hs[j];
        CommandAt(hs[..n], hs[j].op);
        var k :| 0 <= k < |before| && before[k] == hs[j].op;
        assert more[k] == before[k];
      }
    }
  }

  lemma StoreNext(hs: seq<Happening>, n: nat)
    requires n < |hs| && (DoneAt(hs, n) <==> NewAt(hs, n))
    requires Serving(hs[..n]).store == WriteAll(map[], Firsts(Commands(hs[..n])))
    ensures Serving(hs[..n + 1]).store == WriteAll(map[], Firsts(Commands(hs[..n + 1])))
  {
    NextServing(hs, n);
    CommandsNext(hs, n);
    if hs[n].Delivered? {
      var before, op := Commands(hs[..n]), hs[n].op;
      NewIsFirst(hs, n);
      OneMoreFirst(before, op);
      OneMoreWrite(map[], Firsts(before), op);
    }
  }

  lemma {:induction false} OnceIsFirsts(hs: seq<Happening>, n: nat)
    requires ExactlyOnceTo(hs, n) && n <= |hs|
    ensures Serving(hs[..n]).store == WriteAll(map[], Firsts(Commands(hs[..n])))
  {
    if n > 0 {
      OnceIsFirsts(hs, n - 1);
      assert DoneAt(hs, n - 1) <==> NewAt(hs, n - 1);
      StoreNext(hs, n - 1);
    }
  }

  /** Reads leave the store of an orderly server alone: servers that were given the same commands have
      the same store, that of the commands without retries, whatever reads each of them answered. */
  lemma ReadsInvisible(hs: seq<Happening>, gs: seq<Happening>)
    requires Orderly(hs) && Orderly(gs) && Commands(hs) == Commands(gs)
    ensures Serving(hs).store == Serving(gs).store == WriteAll(map[], Firsts(Commands(hs)))
  {
    assert hs[..|hs|] == hs && gs[..|gs|] == gs;
    OrderlyOnce(hs, |hs|);
    OrderlyOnce(gs, |gs|);
    OnceIsFirsts(hs, |hs|);
    OnceIsFirsts(gs, |gs|);
  }

  // ------------------------------------------- a read that splits two replicas

  function PutOp(value: string, client: string, id: int): Op {
    Op("Put", "x", value, client, id)
  }

  /** Client c's first read is answered late, after its write was delivered; then the write is delivered
      again, behind a write of client d. */
  const LATE_READ := [Delivered(PutOp("1", "c", 2)), Answered("c", 1), Delivered(PutOp("2", "d", 1)),
                      Delivered(PutOp("1", "c", 2))]

  /** The same commands at a server that answers no read. */
  const NO_READ := [Delivered(PutOp("1", "c", 2)), Delivered(PutOp("2", "d", 1)), Delivered(PutOp("1", "c", 2))]

  /** The read is answered where the source answers one that has timed out: its id counts as a duplicate. Then
      the write runs a second time, and two servers that were given the same commands differ. */
  lemma LateReadSplits()
    ensures Commands(LATE_READ) == Commands(NO_READ)
    ensures Duplicate(Serving(LATE_READ[..1]).last, Op("Get", "x", "", "c", 1))
    ensures SameRequest(LATE_READ[0].op, LATE_READ[3].op) && DoneAt(LATE_READ, 0) && DoneAt(LATE_READ, 3)
    ensures Serving(LATE_READ).store == map["x" := "1"] && Serving(NO_READ).store == map["x" := "2"]
  {}
}
