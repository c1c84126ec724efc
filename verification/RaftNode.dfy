/** One Raft node as a value: its state and, for every locked section of raft.cc, the function
    from the state before to the state after. RaftServer.dfy proves the imperative code against
    these functions; the other modules prove what the functions mean for a whole cluster. */
module RaftNode {
  import opened KvTypes

  const NOBODY := -1

  // appState and voteState, with the values of raft.h
  const DISCONNECTED := 0
  const APP_NORMAL := 1
  const VOTED := 1
  const EXPIRE := 2
  const NORMAL := 3

  // Marks a rejection that must leave the leader's nextIndex alone
  const KEEP_NEXT_INDEX := -100

  type Command = Op

  datatype Status = Follower | Candidate | Leader

  datatype Entry = Entry(index: int, term: int, command: Command)

  /** What the persister was last given. */
  datatype Record = Record(term: int, votedFor: int, snapIndex: int, snapTerm: int, logs: seq<Entry>)

  datatype Node = Node(
    me: nat, peers: nat,
    term: int, votedFor: int, status: Status,
    logs: seq<Entry>, commitIndex: int, lastApplied: int,
    nextIndex: seq<int>, matchIndex: seq<int>,
    snapIndex: int, snapTerm: int,
    saved: Record, snapshot: Image)

  datatype RequestVoteArgs = RequestVoteArgs(term: int, candidateId: int, lastLogIndex: int, lastLogTerm: int)
  datatype RequestVoteReply = RequestVoteReply(term: int, voteGranted: bool, voteState: int)

  datatype AppendEntriesArgs = AppendEntriesArgs(
    term: int, leaderId: int, prevLogIndex: int, prevLogTerm: int, entries: seq<Entry>, leaderCommit: int)
  datatype AppendEntriesReply = AppendEntriesReply(term: int, success: bool, updateNextIndex: int, appState: int)

  datatype InstallSnapshotArgs = InstallSnapshotArgs(
    term: int, leaderId: int, lastIndex: int, lastTerm: int, data: Image)
  datatype InstallSnapshotReply = InstallSnapshotReply(term: int)

  datatype ApplyMsg =
    | CommandMsg(command: Command, index: int)
    | SnapshotMsg(data: Image, term: int, index: int)

  /** What a heartbeat round dispatches to one peer. */
  datatype Dispatch = NoTask | SnapshotTask | AppendTask(args: AppendEntriesArgs)

  // ---------------------------------------------------------------- soundness

  function InitNode(me: nat, peers: nat): Node {
    Node(me, peers, 0, NOBODY, Follower, [], 0, 0,
         seq(peers, _ => 0), seq(peers, _ => 0), 0, 0, Record(0, NOBODY, 0, 0, []), NoImage)
  }

  /** The invariant of one node: where each log entry sits, how the four indices are ordered, and
      that entry terms lie between 1 and the current term. */
  predicate Sound(s: Node) {
    && s.me < s.peers
    && |s.nextIndex| == s.peers && |s.matchIndex| == s.peers
    && 0 <= s.snapIndex <= s.lastApplied <= s.commitIndex <= s.snapIndex + |s.logs|
    && 0 <= s.snapTerm <= s.term
    && forall k :: 0 <= k < |s.logs| ==>
         s.logs[k].index == s.snapIndex + 1 + k && 1 <= s.logs[k].term <= s.term
  }

  /** The entries of a message follow its previous index one by one. */
  predicate Contiguous(a: AppendEntriesArgs) {
    && 0 <= a.prevLogIndex
    && forall k :: 0 <= k < |a.entries| ==>
         a.entries[k].index == a.prevLogIndex + 1 + k && 1 <= a.entries[k].term <= a.term
  }

  predicate SaneSnapshot(a: InstallSnapshotArgs) {
    0 <= a.lastIndex && 0 <= a.lastTerm <= a.term
  }

  // ------------------------------------------------------------- log look-ups

  function LastIndex(s: Node): int {
    if s.logs == [] then s.snapIndex else s.logs[|s.logs| - 1].index
  }

  function LastTerm(s: Node): int {
    if s.logs == [] then s.snapTerm else s.logs[|s.logs| - 1].term
  }

  function TermAt(s: Node, i: int): int
    requires s.snapIndex <= i <= s.snapIndex + |s.logs|
  {
    if i == s.snapIndex then s.snapTerm else s.logs[i - s.snapIndex - 1].term
  }

  predicate UpToDate(s: Node, index: int, term: int) {
    term > LastTerm(s) || (term == LastTerm(s) && index >= LastIndex(s))
  }

  // -------------------------------------------------------------- persistence

  function RecordOf(s: Node): Record {
    Record(s.term, s.votedFor, s.snapIndex, s.snapTerm, s.logs)
  }

  function Persist(s: Node): Node {
    s.(saved := RecordOf(s))
  }

  // ---------------------------------------------------------------- elections

  function StepDown(s: Node, term: int): Node {
    s.(status := Follower, term := term, votedFor := NOBODY)
  }

  function Elect(s: Node): Node {
    if s.status == Leader then s
    else Persist(s.(status := Candidate, term := s.term + 1, votedFor := s.me))
  }

  function VoteRequest(s: Node): RequestVoteArgs {
    RequestVoteArgs(s.term, s.me, LastIndex(s), LastTerm(s))
  }

  datatype VoteOutcome = VoteOutcome(node: Node, reply: RequestVoteReply)

  function HandleRequestVote(s: Node, a: RequestVoteArgs): VoteOutcome {
    if a.term < s.term then
      VoteOutcome(Persist(s), RequestVoteReply(s.term, false, EXPIRE))
    else
      var s := if a.term > s.term then StepDown(s, a.term) else s;
      if !UpToDate(s, a.lastLogIndex, a.lastLogTerm) || (s.votedFor != NOBODY && s.votedFor != a.candidateId) then
        VoteOutcome(Persist(s), RequestVoteReply(s.term, false, VOTED))
      else
        VoteOutcome(Persist(s.(votedFor := a.candidateId)), RequestVoteReply(s.term, true, NORMAL))
  }

  function Quorum(peers: nat): nat {
    peers / 2 + 1
  }

  function BecomeLeader(s: Node): Node {
    Persist(s.(status := Leader,
               nextIndex := seq(|s.nextIndex|, _ => LastIndex(s) + 1),
               matchIndex := seq(|s.matchIndex|, _ => 0)))
  }

  /** counted: the reply increased the shared counter; won: the counter reached a majority. */
  datatype VoteTally = VoteTally(node: Node, votedNum: int, counted: bool, won: bool)

  function HandleVoteReply(s: Node, reply: RequestVoteReply, votedNum: int): VoteTally {
    if reply.term > s.term then VoteTally(Persist(StepDown(s, reply.term)), votedNum, false, false)
    else if reply.term < s.term || !reply.voteGranted then VoteTally(s, votedNum, false, false)
    else if votedNum + 1 >= Quorum(s.peers) then VoteTally(BecomeLeader(s), 0, true, true)
    else VoteTally(s, votedNum + 1, true, false)
  }

  // -------------------------------------------------------------- replication

  function BuildAppend(s: Node, server: nat): AppendEntriesArgs
    requires server < |s.nextIndex|
    requires s.snapIndex < s.nextIndex[server] <= s.snapIndex + |s.logs| + 1
  {
    var prev := s.nextIndex[server] - 1;
    AppendEntriesArgs(s.term, s.me, prev, TermAt(s, prev), s.logs[prev - s.snapIndex..], s.commitIndex)
  }

  /** No peer's next index lies beyond the log: what doHeartBeat needs to read the previous term. */
  predicate CanBeat(s: Node) {
    forall i :: 0 <= i < |s.nextIndex| && i != s.me ==> s.nextIndex[i] <= s.snapIndex + |s.logs| + 1
  }

  function DispatchTo(s: Node, i: nat): Dispatch
    requires i < |s.nextIndex| && CanBeat(s)
  {
    if i == s.me then NoTask
    else if s.nextIndex[i] <= s.snapIndex then SnapshotTask
    else AppendTask(BuildAppend(s, i))
  }

  function Round(s: Node): seq<Dispatch>
    requires CanBeat(s)
  {
    seq(|s.nextIndex|, i requires 0 <= i < |s.nextIndex| => DispatchTo(s, i))
  }

  function Max(a: int, b: int): int { if a >= b then a else b }

  function Min(a: int, b: int): int { if a <= b then a else b }

  /** The log after entries were laid over it from slot off on: a slot whose term already agrees
      keeps its entry, and slots past the message are kept. */
  function Merged(logs: seq<Entry>, off: nat, entries: seq<Entry>): seq<Entry>
    requires off <= |logs|
  {
    seq(Max(|logs|, off + |entries|), k requires 0 <= k < Max(|logs|, off + |entries|) =>
      if off <= k < off + |entries| && !(k < |logs| && logs[k].term == entries[k - off].term)
      then entries[k - off] else logs[k])
  }

  /** The largest index at or below idx that the backtracking loop stops at. */
  function Backtrack(s: Node, term: int, idx: int): (r: int)
    requires Sound(s) && s.snapIndex - 1 <= idx <= s.snapIndex + |s.logs|
    ensures s.commitIndex - 1 <= r || r == idx
    ensures s.snapIndex - 1 <= r <= idx
    ensures forall k :: r < k <= idx ==> k >= s.commitIndex && TermAt(s, k) == term
    ensures r >= s.commitIndex ==> TermAt(s, r) != term
    decreases idx + 1
  {
    if idx >= s.commitIndex && TermAt(s, idx) == term then Backtrack(s, term, idx - 1) else idx
  }

  datatype AppendOutcome = AppendOutcome(node: Node, reply: AppendEntriesReply)

  function Rejected(s: Node, next: int): AppendOutcome {
    AppendOutcome(Persist(s), AppendEntriesReply(s.term, false, next, APP_NORMAL))
  }

  /** The state in which a node goes on to compare logs with a leader of term `term`. */
  function Follow(s: Node, term: int): Node {
    (if term > s.term then StepDown(s, term) else s).(status := Follower)
  }

  function Accepted(s: Node, a: AppendEntriesArgs): Node
    requires Sound(s) && s.snapIndex <= a.prevLogIndex <= s.snapIndex + |s.logs|
  {
    var logs := Merged(s.logs, a.prevLogIndex - s.snapIndex, a.entries);
    s.(logs := logs,
       commitIndex := if a.leaderCommit > s.commitIndex
                      then Min(a.leaderCommit, s.snapIndex + |logs|) else s.commitIndex)
  }

  /** The node holds an entry at the message's previous index, and of the same term. */
  predicate Matches(s: Node, a: AppendEntriesArgs) {
    s.snapIndex <= a.prevLogIndex <= s.snapIndex + |s.logs| && TermAt(s, a.prevLogIndex) == a.prevLogTerm
  }

  /** What AppendEntries does once the message's term is the node's. */
  function Compared(s: Node, a: AppendEntriesArgs): AppendOutcome
    requires Sound(s) && Contiguous(a)
  {
    if a.prevLogIndex > s.snapIndex + |s.logs| then Rejected(s, s.snapIndex + |s.logs| + 1)
    else if a.prevLogIndex < s.snapIndex then Rejected(s, s.snapIndex + 1)
    else if !Matches(s, a) then
      Rejected(s, Backtrack(s, TermAt(s, a.prevLogIndex), a.prevLogIndex) + 1)
    else
      AppendOutcome(Persist(Accepted(s, a)), AppendEntriesReply(s.term, true, 0, APP_NORMAL))
  }

  function HandleAppend(s: Node, a: AppendEntriesArgs): AppendOutcome
    requires Sound(s) && Contiguous(a)
  {
    if a.term < s.term then AppendOutcome(s, AppendEntriesReply(s.term, false, KEEP_NEXT_INDEX, APP_NORMAL))
    else Compared(Follow(s, a.term), a)
  }

  /** counted: the reply increased the shared counter; committed: the commit index was raised to the
      end of the message because the counter reached a majority. */
  datatype AppendTally = AppendTally(node: Node, appendNums: int, counted: bool, majority: bool, committed: bool)

  function EndIndex(a: AppendEntriesArgs): int {
    a.prevLogIndex + |a.entries|
  }

  function EndTerm(a: AppendEntriesArgs): int {
    if a.entries == [] then a.prevLogTerm else a.entries[|a.entries| - 1].term
  }

  function HandleAppendReply(s: Node, server: nat, a: AppendEntriesArgs, reply: AppendEntriesReply,
                             appendNums: int): AppendTally
    requires server < |s.nextIndex| && server < |s.matchIndex|
  {
    if reply.appState == DISCONNECTED then AppendTally(s, appendNums, false, false, false)
    else if reply.term > s.term then AppendTally(StepDown(s, reply.term), appendNums, false, false, false)
    else if reply.term < s.term || s.status != Leader then AppendTally(s, appendNums, false, false, false)
    else if !reply.success then
      var next := if reply.updateNextIndex != KEEP_NEXT_INDEX
                  then s.nextIndex[server := reply.updateNextIndex] else s.nextIndex;
      AppendTally(s.(nextIndex := next), appendNums, false, false, false)
    else
      var match_ := Max(s.matchIndex[server], EndIndex(a));
      var s := s.(matchIndex := s.matchIndex[server := match_], nextIndex := s.nextIndex[server := match_ + 1]);
      if appendNums + 1 < Quorum(s.peers) then AppendTally(s, appendNums + 1, true, false, false)
      else if a.entries != [] && EndTerm(a) == s.term then
        AppendTally(s.(commitIndex := Max(s.commitIndex, EndIndex(a))), 0, true, true, true)
      else AppendTally(s, 0, true, true, false)
  }

  // ------------------------------------------------- client commands, applying

  function Start(s: Node, command: Command): Node {
    if s.status != Leader then s
    else Persist(s.(logs := s.logs + [Entry(LastIndex(s) + 1, s.term, command)]))
  }

  /** The commands handed to the state machine: everything applied up to the commit index. */
  function ApplyLogs(s: Node): seq<ApplyMsg>
    requires Sound(s)
  {
    seq(s.commitIndex - s.lastApplied, k requires 0 <= k < s.commitIndex - s.lastApplied =>
      CommandMsg(s.logs[s.lastApplied + k - s.snapIndex].command, s.lastApplied + 1 + k))
  }

  function Applied(s: Node): Node {
    s.(lastApplied := s.commitIndex)
  }

  // ---------------------------------------------------------------- snapshots

  function Compact(s: Node, index: int, data: Image): Node
    requires Sound(s)
  {
    if s.snapIndex >= index || index > s.commitIndex then s
    else
      Persist(s.(snapIndex := index, snapTerm := TermAt(s, index), logs := s.logs[index - s.snapIndex..],
                 commitIndex := Max(s.commitIndex, index), lastApplied := Max(s.lastApplied, index),
                 snapshot := data))
  }

  function BuildSnapshot(s: Node): InstallSnapshotArgs {
    InstallSnapshotArgs(s.term, s.me, s.snapIndex, s.snapTerm, s.snapshot)
  }

  datatype SnapshotOutcome = SnapshotOutcome(node: Node, reply: InstallSnapshotReply, pushed: seq<ApplyMsg>)

  /** The snapshot replaces the log up to its last index; a longer log keeps the rest, whatever its
      term at that index. */
  function Installed(s: Node, a: InstallSnapshotArgs): Node
    requires Sound(s) && s.snapIndex < a.lastIndex
  {
    s.(logs := if s.snapIndex + |s.logs| > a.lastIndex then s.logs[a.lastIndex - s.snapIndex..] else [],
       commitIndex := Max(s.commitIndex, a.lastIndex), lastApplied := Max(s.lastApplied, a.lastIndex),
       snapIndex := a.lastIndex, snapTerm := a.lastTerm, snapshot := a.data)
  }

  function HandleInstall(s: Node, a: InstallSnapshotArgs): SnapshotOutcome
    requires Sound(s) && SaneSnapshot(a)
  {
    if a.term < s.term then SnapshotOutcome(s, InstallSnapshotReply(s.term), [])
    else
      var s := (if a.term > s.term then Persist(StepDown(s, a.term)) else s).(status := Follower);
      if a.lastIndex <= s.snapIndex then SnapshotOutcome(s, InstallSnapshotReply(0), [])
      else SnapshotOutcome(Persist(Installed(s, a)), InstallSnapshotReply(s.term),
                           [SnapshotMsg(a.data, a.lastTerm, a.lastIndex)])
  }

  function HandleInstallReply(s: Node, server: nat, a: InstallSnapshotArgs, reply: InstallSnapshotReply): Node
    requires server < |s.nextIndex| && server < |s.matchIndex|
  {
    if s.status != Leader || s.term != a.term then s
    else if reply.term > s.term then Persist(StepDown(s, reply.term))
    else s.(matchIndex := s.matchIndex[server := a.lastIndex], nextIndex := s.nextIndex[server := a.lastIndex + 1])
  }

  // ------------------------------------------- what every locked section keeps

  /** Nothing a node has established goes away: indices and term never decrease, a vote is kept for
      the rest of its term, and a node is Leader only if it was Leader in this term before. */
  predicate Grows(s: Node, t: Node) {
    && t.me == s.me && t.peers == s.peers
    && s.term <= t.term
    && (s.term == t.term && s.votedFor != NOBODY ==> t.votedFor == s.votedFor)
    && s.snapIndex <= t.snapIndex
    && s.lastApplied <= t.lastApplied
    && s.commitIndex <= t.commitIndex
    && s.snapIndex + |s.logs| <= t.snapIndex + |t.logs|
  }

  predicate NoNewLeader(s: Node, t: Node) {
    t.status == Leader ==> s.status == Leader && t.term == s.term
  }

  lemma LastIndexSound(s: Node)
    requires Sound(s)
    ensures LastIndex(s) == s.snapIndex + |s.logs|
    ensures LastTerm(s) == TermAt(s, LastIndex(s))
  {}

  lemma MergedSound(s: Node, a: AppendEntriesArgs)
    requires Sound(s) && Contiguous(a) && a.term <= s.term
    requires s.snapIndex <= a.prevLogIndex <= s.snapIndex + |s.logs|
    ensures var logs := Merged(s.logs, a.prevLogIndex - s.snapIndex, a.entries);
            forall k :: 0 <= k < |logs| ==> logs[k].index == s.snapIndex + 1 + k && 1 <= logs[k].term <= s.term
  {}

  lemma ElectSteady(s: Node)
    requires Sound(s)
    ensures Sound(Elect(s)) && Grows(s, Elect(s)) && NoNewLeader(s, Elect(s))
  {}

  lemma RequestVoteSteady(s: Node, a: RequestVoteArgs)
    requires Sound(s)
    ensures var t := HandleRequestVote(s, a).node; Sound(t) && Grows(s, t) && NoNewLeader(s, t)
  {}

  lemma VoteReplySteady(s: Node, reply: RequestVoteReply, votedNum: int)
    requires Sound(s)
    ensures var t := HandleVoteReply(s, reply, votedNum).node; Sound(t) && Grows(s, t)
  {}

  lemma AcceptedSteady(s: Node, a: AppendEntriesArgs)
    requires Sound(s) && Contiguous(a) && a.term <= s.term
    requires s.snapIndex <= a.prevLogIndex <= s.snapIndex + |s.logs|
    ensures Sound(Accepted(s, a)) && Grows(s, Accepted(s, a))
  {
    MergedSound(s, a);
  }

  lemma AppendSteady(s: Node, a: AppendEntriesArgs)
    requires Sound(s) && Contiguous(a)
    ensures var t := HandleAppend(s, a).node; Sound(t) && Grows(s, t) && NoNewLeader(s, t)
  {
    if a.term >= s.term {
      var f := Follow(s, a.term);
      assert Sound(f) && Grows(s, f);
      if Matches(f, a) { AcceptedSteady(f, a); }
    }
  }

  lemma AppendReplySteady(s: Node, server: nat, a: AppendEntriesArgs, reply: AppendEntriesReply, appendNums: int)
    requires Sound(s) && server < s.peers
    requires reply.success && reply.term == s.term ==> EndIndex(a) <= s.snapIndex + |s.logs|
    ensures var t := HandleAppendReply(s, server, a, reply, appendNums).node;
            Sound(t) && Grows(s, t) && NoNewLeader(s, t)
  {}

  lemma StartSteady(s: Node, command: Command)
    requires Sound(s) && (s.status == Leader ==> s.term >= 1)
    ensures var t := Start(s, command); Sound(t) && Grows(s, t) && NoNewLeader(s, t)
  {}

  lemma AppliedSteady(s: Node)
    requires Sound(s)
    ensures var t := Applied(s); Sound(t) && Grows(s, t) && NoNewLeader(s, t)
  {}

  lemma CompactSteady(s: Node, index: int, data: Image)
    requires Sound(s)
    ensures var t := Compact(s, index, data); Sound(t) && Grows(s, t) && NoNewLeader(s, t)
  {}

  lemma InstallSteady(s: Node, a: InstallSnapshotArgs)
    requires Sound(s) && SaneSnapshot(a)
    ensures var t := HandleInstall(s, a).node; Sound(t) && Grows(s, t) && NoNewLeader(s, t)
  {}

  lemma InstallReplySteady(s: Node, server: nat, a: InstallSnapshotArgs, reply: InstallSnapshotReply)
    requires Sound(s) && server < s.peers
    ensures var t := HandleInstallReply(s, server, a, reply); Sound(t) && Grows(s, t) && NoNewLeader(s, t)
  {}
}
