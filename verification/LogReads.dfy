/** The accesses to m_logs the way raft.cc writes them: a read out of range is an outcome of its own.
    For AppendEntries and for the heartbeat, exactly when that outcome occurs, and that the code is the
    function of RaftNode.dfy whenever it does not. */
module LogReads {
  import opened RaftNode

  datatype Read<T> = InRange(value: T) | OutOfRange

  // ------------------------------------------------------------- AppendEntries

  function ReadTerm(s: Node, logIndex: int): Read<int> {
    if logIndex == s.snapIndex then InRange(s.snapTerm)
    else if 0 <= logIndex - s.snapIndex - 1 < |s.logs| then InRange(s.logs[logIndex - s.snapIndex - 1].term)
    else OutOfRange
  }

  /** One turn of the loop over the entries of a message. */
  function OverlayOne(s: Node, log: Entry): Read<Node> {
    var slot := log.index - s.snapIndex - 1;
    if log.index > LastIndex(s) then InRange(s.(logs := s.logs + [log]))
    else if !(0 <= slot < |s.logs|) then OutOfRange
    else if s.logs[slot].term != log.term then InRange(s.(logs := s.logs[slot := log]))
    else InRange(s)
  }

  function Overlay(s: Node, entries: seq<Entry>): Read<Node>
    decreases |entries|
  {
    if entries == [] then InRange(s)
    else
      match OverlayOne(s, entries[0])
      case OutOfRange => OutOfRange
      case InRange(t) => Overlay(t, entries[1..])
  }

  /** Where the loop goes on from entry i. */
  lemma OverlayFrom(s: Node, entries: seq<Entry>, i: nat)
    requires i < |entries|
    ensures var first := OverlayOne(s, entries[i]);
            Overlay(s, entries[i..]) == if first.InRange? then Overlay(first.value, entries[i + 1..]) else OutOfRange
  {
    assert entries[i..][1..] == entries[i + 1..];
  }

  /** The backtracking loop. */
  function WalkBack(s: Node, prev: int, idx: int): Read<int>
    decreases idx - s.commitIndex
  {
    if idx < s.commitIndex then InRange(idx)
    else if ReadTerm(s, idx).OutOfRange? || ReadTerm(s, prev).OutOfRange? then OutOfRange
    else if ReadTerm(s, idx) == ReadTerm(s, prev) then WalkBack(s, prev, idx - 1)
    else InRange(idx)
  }

  function Overlaid(s: Node, a: AppendEntriesArgs): Read<AppendOutcome> {
    match Overlay(s, a.entries)
    case OutOfRange => OutOfRange
    case InRange(t) =>
      var t := if a.leaderCommit > t.commitIndex then t.(commitIndex := Min(a.leaderCommit, LastIndex(t))) else t;
      InRange(AppendOutcome(Persist(t), AppendEntriesReply(t.term, true, 0, APP_NORMAL)))
  }

  function WalkedBack(s: Node, a: AppendEntriesArgs): Read<AppendOutcome> {
    match WalkBack(s, a.prevLogIndex, a.prevLogIndex)
    case OutOfRange => OutOfRange
    case InRange(idx) => InRange(Rejected(s, idx + 1))
  }

  /** AppendEntries, with the branch for a previous index below the snapshot, which does not return. */
  function AppendAsWritten(s: Node, a: AppendEntriesArgs): Read<AppendOutcome> {
    if a.term < s.term then InRange(AppendOutcome(s, AppendEntriesReply(s.term, false, KEEP_NEXT_INDEX, APP_NORMAL)))
    else
      var s := Follow(s, a.term);
      if a.prevLogIndex > LastIndex(s) then InRange(Rejected(s, LastIndex(s) + 1))
      else if ReadTerm(s, a.prevLogIndex).OutOfRange? then OutOfRange
      else if ReadTerm(s, a.prevLogIndex).value == a.prevLogTerm then Overlaid(s, a)
      else WalkedBack(s, a)
  }

  lemma ReadsTerm(s: Node, i: int)
    requires Sound(s)
    ensures ReadTerm(s, i) == if s.snapIndex <= i <= s.snapIndex + |s.logs| then InRange(TermAt(s, i)) else OutOfRange
  {}

  /** The first entry laid over the log, and the rest over the result. */
  lemma MergedFirst(logs: seq<Entry>, off: nat, entries: seq<Entry>)
    requires off <= |logs| && entries != []
    ensures Merged(FirstLaid(logs, off, entries[0]), off + 1, entries[1..]) == Merged(logs, off, entries)
  {}

  predicate InPlace(s: Node) {
    0 <= s.snapIndex && forall k :: 0 <= k < |s.logs| ==> s.logs[k].index == s.snapIndex + 1 + k
  }

  predicate Follows(index: int, entries: seq<Entry>) {
    forall k :: 0 <= k < |entries| ==> entries[k].index == index + 1 + k
  }

  lemma FollowsRest(index: int, entries: seq<Entry>)
    requires Follows(index, entries) && entries != []
    ensures Follows(index + 1, entries[1..])
  {
    forall k | 0 <= k < |entries[1..]| ensures entries[1..][k].index == index + 2 + k {
      assert entries[1..][k] == entries[k + 1];
    }
  }

  /** The log after one entry was laid over slot off. */
  function FirstLaid(logs: seq<Entry>, off: nat, e: Entry): seq<Entry>
    requires off <= |logs|
  {
    if off == |logs| then logs + [e] else if logs[off].term != e.term then logs[off := e] else logs
  }

  lemma OverlayOneIs(s: Node, off: nat, e: Entry)
    requires InPlace(s) && off <= |s.logs| && e.index == s.snapIndex + off + 1
    ensures OverlayOne(s, e) == InRange(s.(logs := FirstLaid(s.logs, off, e)))
    ensures InPlace(s.(logs := FirstLaid(s.logs, off, e)))
  {}

  lemma {:induction false} OverlayIs(s: Node, off: nat, entries: seq<Entry>)
    requires InPlace(s) && off <= |s.logs| && Follows(s.snapIndex + off, entries)
    ensures Overlay(s, entries) == InRange(s.(logs := Merged(s.logs, off, entries)))
    decreases |entries|
  {
    if entries == [] {
      assert Merged(s.logs, off, entries) == s.logs;
    } else {
      MergedFirst(s.logs, off, entries);
      FollowsRest(s.snapIndex + off, entries);
      OverlayOneIs(s, off, entries[0]);
      OverlayIs(s.(logs := FirstLaid(s.logs, off, entries[0])), off + 1, entries[1..]);
    }
  }

  lemma {:induction false} WalkBackIs(s: Node, prev: int, idx: int)
    requires Sound(s) && s.snapIndex <= prev <= s.snapIndex + |s.logs| && s.snapIndex - 1 <= idx <= prev
    ensures WalkBack(s, prev, idx) == InRange(Backtrack(s, TermAt(s, prev), idx))
    decreases idx - s.commitIndex
  {
    ReadsTerm(s, idx);
    ReadsTerm(s, prev);
    if idx >= s.commitIndex && TermAt(s, idx) == TermAt(s, prev) { WalkBackIs(s, prev, idx - 1); }
  }

  lemma OverlaidIs(s: Node, a: AppendEntriesArgs)
    requires Sound(s) && Contiguous(a) && Matches(s, a)
    ensures Overlaid(s, a) == InRange(Compared(s, a))
  {
    OverlayIs(s, a.prevLogIndex - s.snapIndex, a.entries);
    LastIs(s, a);
  }

  lemma WalkedBackIs(s: Node, a: AppendEntriesArgs)
    requires Sound(s) && Contiguous(a) && s.snapIndex <= a.prevLogIndex <= s.snapIndex + |s.logs| && !Matches(s, a)
    ensures WalkedBack(s, a) == InRange(Compared(s, a))
  {
    WalkBackIs(s, a.prevLogIndex, a.prevLogIndex);
  }

  lemma LastIs(s: Node, a: AppendEntriesArgs)
    requires Sound(s) && Contiguous(a) && s.snapIndex <= a.prevLogIndex <= s.snapIndex + |s.logs|
    ensures var logs := Merged(s.logs, a.prevLogIndex - s.snapIndex, a.entries);
            LastIndex(s.(logs := logs)) == s.snapIndex + |logs|
  {}

  /** AppendEntries reads out of range exactly when the message is not stale and its previous index is
      below the snapshot; otherwise it does what HandleAppend says. */
  lemma AppendInRange(s: Node, a: AppendEntriesArgs)
    requires Sound(s) && Contiguous(a)
    ensures AppendAsWritten(s, a)
            == if a.term >= s.term && a.prevLogIndex < s.snapIndex then OutOfRange else InRange(HandleAppend(s, a))
  {
    var f := Follow(s, a.term);
    assert a.term >= s.term ==> Sound(f);
    if a.term >= s.term {
      LastIndexSound(f);
      ReadsTerm(f, a.prevLogIndex);
      if Matches(f, a) { OverlaidIs(f, a); }
      else if f.snapIndex <= a.prevLogIndex <= f.snapIndex + |f.logs| { WalkedBackIs(f, a); }
    }
  }

  // ----------------------------------------------------------------- heartbeat

  /** One turn of the loop in doHeartBeat, with getPrevLogInfo. */
  function DispatchAsWritten(s: Node, i: nat): Read<Dispatch>
    requires i < |s.nextIndex|
  {
    var prev := s.nextIndex[i] - 1;
    var slot := prev - s.snapIndex - 1;
    if i == s.me then InRange(NoTask)
    else if s.nextIndex[i] <= s.snapIndex then InRange(SnapshotTask)
    else if s.nextIndex[i] == s.snapIndex + 1 then
      InRange(AppendTask(AppendEntriesArgs(s.term, s.me, s.snapIndex, s.snapTerm, s.logs, s.commitIndex)))
    else if !(0 <= slot < |s.logs|) then OutOfRange
    else
      InRange(AppendTask(
        AppendEntriesArgs(s.term, s.me, prev, s.logs[slot].term, s.logs[slot + 1..], s.commitIndex)))
  }

  /** The loop from peer i on. */
  function BeatAsWritten(s: Node, i: nat): Read<seq<Dispatch>>
    requires i <= |s.nextIndex|
    decreases |s.nextIndex| - i
  {
    if i == |s.nextIndex| then InRange([])
    else if DispatchAsWritten(s, i).OutOfRange? || BeatAsWritten(s, i + 1).OutOfRange? then OutOfRange
    else InRange([DispatchAsWritten(s, i).value] + BeatAsWritten(s, i + 1).value)
  }

  predicate CanBeatTo(s: Node, i: nat)
    requires i < |s.nextIndex|
  {
    i != s.me ==> s.nextIndex[i] <= s.snapIndex + |s.logs| + 1
  }

  lemma DispatchInRange(s: Node, i: nat)
    requires Sound(s) && i < |s.nextIndex|
    ensures DispatchAsWritten(s, i).OutOfRange? <==> !CanBeatTo(s, i)
    ensures CanBeatTo(s, i) && i != s.me && s.nextIndex[i] > s.snapIndex ==>
              DispatchAsWritten(s, i) == InRange(AppendTask(BuildAppend(s, i)))
    ensures CanBeat(s) ==> DispatchAsWritten(s, i) == InRange(DispatchTo(s, i))
  {
    if CanBeatTo(s, i) && s.nextIndex[i] == s.snapIndex + 1 { assert s.logs[0..] == s.logs; }
  }

  lemma {:induction false} LoopInRange(s: Node, i: nat)
    requires Sound(s) && i <= |s.nextIndex|
    ensures BeatAsWritten(s, i).OutOfRange? <==> exists k: nat {:trigger CanBeatTo(s, k)} ::
        i <= k < |s.nextIndex| && !CanBeatTo(s, k)
    ensures CanBeat(s) ==> BeatAsWritten(s, i) == InRange(Round(s)[i..])
    decreases |s.nextIndex| - i
  {
    if i == |s.nextIndex| {
      if CanBeat(s) { assert Round(s)[i..] == []; }
    } else {
      DispatchInRange(s, i);
      LoopInRange(s, i + 1);
      assert BeatAsWritten(s, i).OutOfRange? <==> !CanBeatTo(s, i) || BeatAsWritten(s, i + 1).OutOfRange?;
      if CanBeat(s) { assert Round(s)[i..] == [Round(s)[i]] + Round(s)[i + 1..]; }
    }
  }

  /** A heartbeat of a leader reads out of range exactly when the next index of some peer lies beyond the
      leader's log by more than one; otherwise it dispatches the round of the model. */
  lemma BeatInRange(s: Node)
    requires Sound(s)
    ensures BeatAsWritten(s, 0) == if CanBeat(s) then InRange(Round(s)) else OutOfRange
  {
    LoopInRange(s, 0);
    if CanBeat(s) {
      assert Round(s)[0..] == Round(s);
    } else {
      var k: nat :| k < |s.nextIndex| && k != s.me && s.nextIndex[k] > s.snapIndex + |s.logs| + 1;
      assert !CanBeatTo(s, k);
    }
  }
}
