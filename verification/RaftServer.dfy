/** The class of raft.cc. Each method is one locked section with the loops of the code, proved equal to
    the function of RaftNode.dfy that specifies it. The two methods of which LogReads.dfy says that they
    can read m_logs out of range stop there and answer false; no other access leaves its range. */
module RaftServer {
  import opened KvTypes
  import opened RaftNode
  import opened LogReads
  import opened Channels

  /** The counter that the tasks of one election, or of one heartbeat round, share. */
  class Counter {
    var value: int

    constructor (value: int)
      ensures this.value == value
    {
      this.value := value;
    }
  }

  /** A locked section runs to its end, waits inside for room in a channel, or is left by an exception. */
  datatype Ending = Finished | Waits | Throws

  /** The follower that a snapshot message of its term, or a higher one, makes. */
  function HeardInstall(s: Node, a: InstallSnapshotArgs): Node {
    (if a.term > s.term then Persist(StepDown(s, a.term)) else s).(status := Follower)
  }

  /** A node that has taken over a snapshot and has saved neither the snapshot nor itself. */
  function AtPush(s: Node, a: InstallSnapshotArgs): Node
    requires Sound(s) && s.snapIndex < a.lastIndex
  {
    Installed(HeardInstall(s, a), a).(snapshot := s.snapshot)
  }

  /** At the push everything is done but the saving: the record is the old one, or that of the step down. */
  lemma PushUnsaved(s: Node, a: InstallSnapshotArgs)
    requires Sound(s) && SaneSnapshot(a) && a.term >= s.term && a.lastIndex > s.snapIndex
    ensures var t := AtPush(s, a);
            && t == HandleInstall(s, a).node.(saved := t.saved, snapshot := s.snapshot)
            && t.saved == if a.term > s.term then Record(a.term, -1, s.snapIndex, s.snapTerm, s.logs) else s.saved
  {}

  datatype VoteTask = NoVoteTask | VoteTask(args: RequestVoteArgs)

  class Raft {
    const me: nat
    const peers: nat
    const applyChan: Channel<ApplyMsg>
    var term: int
    var votedFor: int
    var status: Status
    var logs: seq<Entry>
    var commitIndex: int
    var lastApplied: int
    var nextIndex: seq<int>
    var matchIndex: seq<int>
    var snapIndex: int
    var snapTerm: int
    // the persister
    var saved: Record
    var snapshot: Image

    function State(): Node
      reads this
    {
      Node(me, peers, term, votedFor, status, logs, commitIndex, lastApplied, nextIndex, matchIndex,
           snapIndex, snapTerm, saved, snapshot)
    }

    constructor (me: nat, peers: nat, applyChan: Channel<ApplyMsg>)
      requires me < peers
      ensures State() == InitNode(me, peers) && Sound(State()) && this.applyChan == applyChan
    {
      this.me := me;
      this.peers := peers;
      this.applyChan := applyChan;
      term, votedFor, status := 0, NOBODY, Follower;
      logs, commitIndex, lastApplied := [], 0, 0;
      snapIndex, snapTerm := 0, 0;
      saved, snapshot := Record(0, NOBODY, 0, 0, []), NoImage;
      var next: seq<int> := [];
      var i := 0;
      while i < peers
        invariant 0 <= i <= peers && next == seq(i, _ => 0)
      {
        next := next + [0];
        i := i + 1;
      }
      nextIndex, matchIndex := next, next;
    }

    // ------------------------------------------------------------ look-ups

    function GetLastLogIndex(): int
      reads this
    {
      LastIndex(State())
    }

    function GetSlicesIndex(logIndex: int): int
      reads this
    {
      logIndex - snapIndex - 1
    }

    function GetLogTerm(logIndex: int): int
      requires snapIndex <= logIndex <= snapIndex + |logs|
      reads this
    {
      if logIndex == snapIndex then snapTerm else logs[GetSlicesIndex(logIndex)].term
    }

    method DoPersist()
      modifies this`saved
      ensures State() == Persist(old(State()))
    {
      saved := Record(term, votedFor, snapIndex, snapTerm, logs);
    }

    // ----------------------------------------------------------- elections

    method DoElection() returns (tasks: seq<VoteTask>, votedNum: Counter?)
      requires Sound(State())
      modifies this
      ensures State() == Elect(old(State()))
      ensures old(status) == Leader ==> tasks == [] && votedNum == null
      ensures old(status) != Leader ==> votedNum != null && fresh(votedNum) && votedNum.value == 1
      ensures old(status) != Leader ==> |tasks| == peers && forall i :: 0 <= i < peers ==>
                tasks[i] == if i == me then NoVoteTask else VoteTask(VoteRequest(State()))
    {
      tasks, votedNum := [], null;
      if status != Leader {
        status := Candidate;
        term := term + 1;
        votedFor := me;
        DoPersist();
        votedNum := new Counter(1);
        var i := 0;
        while i < peers
          invariant 0 <= i <= peers && |tasks| == i
          invariant State() == Elect(old(State())) && votedNum.value == 1 && fresh(votedNum)
          invariant forall k :: 0 <= k < i ==> tasks[k] == if k == me then NoVoteTask
              else VoteTask(VoteRequest(State()))
        {
          if i == me {
            tasks := tasks + [NoVoteTask];
          } else {
            tasks := tasks + [VoteTask(RequestVoteArgs(term, me, LastIndex(State()), LastTerm(State())))];
          }
          i := i + 1;
        }
      }
    }

    method RequestVote(args: RequestVoteArgs) returns (reply: RequestVoteReply)
      requires Sound(State())
      modifies this
      ensures VoteOutcome(State(), reply) == HandleRequestVote(old(State()), args)
    {
      if args.term < term {
        reply := RequestVoteReply(term, false, EXPIRE);
        DoPersist();
        return;
      }
      if args.term > term {
        status := Follower;
        term := args.term;
        votedFor := NOBODY;
      }
      if !UpToDate(State(), args.lastLogIndex, args.lastLogTerm) {
        reply := RequestVoteReply(term, false, VOTED);
      } else if votedFor != NOBODY && votedFor != args.candidateId {
        reply := RequestVoteReply(term, false, VOTED);
      } else {
        votedFor := args.candidateId;
        reply := RequestVoteReply(term, true, NORMAL);
      }
      DoPersist();
    }

    /** A new leader expects every peer to continue after its own last entry. */
    method ResetProgress(lastLogIndex: int)
      requires |nextIndex| == |matchIndex|
      modifies this`nextIndex, this`matchIndex
      ensures nextIndex == seq(|old(nextIndex)|, _ => lastLogIndex + 1)
      ensures matchIndex == seq(|old(matchIndex)|, _ => 0)
    {
      var i := 0;
      while i < |nextIndex|
        invariant 0 <= i <= |nextIndex| == |old(nextIndex)| && |matchIndex| == |nextIndex|
        invariant forall k :: 0 <= k < i ==> nextIndex[k] == lastLogIndex + 1 && matchIndex[k] == 0
      {
        nextIndex := nextIndex[i := lastLogIndex + 1];
        matchIndex := matchIndex[i := 0];
        i := i + 1;
      }
    }

    /** The part of sendRequestVote after the remote call. beat: a heartbeat task was posted. */
    method HearVote(reply: RequestVoteReply, votedNum: Counter) returns (beat: bool)
      requires Sound(State())
      modifies this, votedNum
      ensures var tally := HandleVoteReply(old(State()), reply, old(votedNum.value));
              State() == tally.node && votedNum.value == tally.votedNum && beat == tally.won
    {
      beat := false;
      if reply.term > term {
        status := Follower;
        term := reply.term;
        votedFor := NOBODY;
        DoPersist();
        return;
      } else if reply.term < term {
        return;
      }
      if !reply.voteGranted {
        return;
      }
      votedNum.value := votedNum.value + 1;
      if votedNum.value >= peers / 2 + 1 {
        votedNum.value := 0;
        status := Leader;
        ResetProgress(GetLastLogIndex());
        beat := true;
        DoPersist();
      }
    }

    // --------------------------------------------------------- replication

    /** The arguments for one peer. The entries are copied one by one behind the previous index. */
    method BuildFor(server: nat) returns (args: AppendEntriesArgs)
      requires Sound(State()) && server < peers && snapIndex < nextIndex[server] <= snapIndex + |logs| + 1
      ensures args == BuildAppend(State(), server)
    {
      var prevIndex, prevTerm;
      if nextIndex[server] == snapIndex + 1 {
        prevIndex, prevTerm := snapIndex, snapTerm;
      } else {
        prevIndex := nextIndex[server] - 1;
        prevTerm := logs[GetSlicesIndex(prevIndex)].term;
      }
      var entries := [];
      if prevIndex != snapIndex {
        var j := GetSlicesIndex(prevIndex) + 1;
        while j < |logs|
          invariant GetSlicesIndex(prevIndex) + 1 <= j <= |logs|
          invariant entries == logs[GetSlicesIndex(prevIndex) + 1..j]
        {
          entries := entries + [logs[j]];
          j := j + 1;
        }
      } else {
        entries := logs;
      }
      args := AppendEntriesArgs(term, me, prevIndex, prevTerm, entries, commitIndex);
    }

    static lemma AllInRange(s: Node, round: seq<Dispatch>)
      requires Sound(s) && |round| == |s.nextIndex|
      requires forall k: nat {:trigger DispatchAsWritten(s, k)} :: k < |round| ==>
          DispatchAsWritten(s, k) == InRange(round[k])
      ensures CanBeat(s) && round == Round(s)
    {
      forall k: nat | k < |round| && k != s.me ensures s.nextIndex[k] <= s.snapIndex + |s.logs| + 1 {
        DispatchInRange(s, k);
        assert DispatchAsWritten(s, k) == InRange(round[k]);
        assert CanBeatTo(s, k);
      }
      forall k: nat | k < |round| ensures CanBeat(s) && round[k] == DispatchTo(s, k) {
        DispatchInRange(s, k);
        assert DispatchAsWritten(s, k) == InRange(round[k]);
      }
    }

    /** inRange: no read has left m_logs. */
    method DoHeartBeat() returns (round: seq<Dispatch>, appendNums: Counter?, inRange: bool)
      requires Sound(State())
      modifies {}
      ensures status != Leader ==> inRange && round == [] && appendNums == null
      ensures status == Leader ==>
                (inRange <==> CanBeat(State())) && BeatAsWritten(State(), 0)
                    == if inRange then InRange(round) else OutOfRange
      ensures status == Leader && inRange ==>
                round == Round(State()) && appendNums != null && fresh(appendNums) && appendNums.value == 1
    {
      round, appendNums, inRange := [], null, true;
      if status == Leader {
        BeatInRange(State());
        appendNums := new Counter(1);
        var i := 0;
        while i < peers
          invariant 0 <= i <= peers && appendNums.value == 1 && |round| == i
          invariant forall k: nat {:trigger DispatchAsWritten(State(), k)} :: k < i ==>
                      DispatchAsWritten(State(), k) == InRange(round[k])
        {
          DispatchInRange(State(), i);
          if i == me {
            round := round + [NoTask];
          } else if nextIndex[i] <= snapIndex {
            round := round + [SnapshotTask];
          } else if GetSlicesIndex(nextIndex[i] - 1) >= |logs| {
            return [], null, false;
          } else {
            var args := BuildFor(i);
            round := round + [AppendTask(args)];
          }
          i := i + 1;
        }
        AllInRange(State(), round);
      }
    }

    /** One turn of the loop below. */
    method CopyOne(log: Entry)
      requires OverlayOne(State(), log).InRange?
      modifies this`logs
      ensures OverlayOne(old(State()), log) == InRange(State())
    {
      if log.index > GetLastLogIndex() {
        logs := logs + [log];
      } else {
        if logs[GetSlicesIndex(log.index)].term != log.term {
          logs := logs[GetSlicesIndex(log.index) := log];
        }
      }
    }

    /** Lays the entries of a matching message over the log, one slot at a time. */
    method CopyEntries(args: AppendEntriesArgs)
      requires Sound(State()) && Contiguous(args)
      requires snapIndex <= args.prevLogIndex <= snapIndex + |logs|
      modifies this`logs
      ensures logs == Merged(old(logs), args.prevLogIndex - snapIndex, args.entries)
    {
      OverlayIs(State(), args.prevLogIndex - snapIndex, args.entries);
      ghost var goal := Overlay(State(), args.entries);
      var i := 0;
      assert args.entries[i..] == args.entries;
      while i < |args.entries|
        invariant 0 <= i <= |args.entries|
        invariant Overlay(State(), args.entries[i..]) == goal
      {
        OverlayFrom(State(), args.entries, i);
        CopyOne(args.entries[i]);
        i := i + 1;
      }
    }

    /** Walks back over the entries of one term, at most to the one before the commit index. */
    method SkipTerm(prevLogIndex: int) returns (idx: int)
      requires Sound(State()) && snapIndex <= prevLogIndex <= snapIndex + |logs|
      ensures idx == Backtrack(State(), TermAt(State(), prevLogIndex), prevLogIndex)
    {
      idx := prevLogIndex;
      while idx >= commitIndex && GetLogTerm(idx) == GetLogTerm(prevLogIndex)
        invariant snapIndex - 1 <= idx <= prevLogIndex
        invariant Backtrack(State(), TermAt(State(), prevLogIndex), prevLogIndex)
                  == Backtrack(State(), TermAt(State(), prevLogIndex), idx)
      {
        idx := idx - 1;
      }
    }

    method AcceptEntries(args: AppendEntriesArgs)
      requires Sound(State()) && Contiguous(args) && args.term <= term
      requires snapIndex <= args.prevLogIndex <= snapIndex + |logs|
      modifies this
      ensures State() == Accepted(old(State()), args)
    {
      MergedSound(State(), args);
      CopyEntries(args);
      if args.leaderCommit > commitIndex {
        commitIndex := Min(args.leaderCommit, GetLastLogIndex());
      }
    }

    /** The end of AppendEntries: compares the logs and persists. The branch for a previous index below the
        snapshot fills in the reply and goes on to the comparison. */
    method CompareLogs(args: AppendEntriesArgs) returns (reply: AppendEntriesReply, inRange: bool)
      requires Sound(State()) && Contiguous(args) && args.term == term
      modifies this
      ensures inRange <==> old(snapIndex) <= args.prevLogIndex
      ensures inRange ==> AppendOutcome(State(), reply) == Compared(old(State()), args)
    {
      inRange := true;
      LastIndexSound(State());
      if args.prevLogIndex > GetLastLogIndex() {
        reply := AppendEntriesReply(term, false, GetLastLogIndex() + 1, APP_NORMAL);
        DoPersist();
        return;
      } else if args.prevLogIndex < snapIndex {
        reply := AppendEntriesReply(term, false, snapIndex + 1, APP_NORMAL);
      }
      if args.prevLogIndex != snapIndex && GetSlicesIndex(args.prevLogIndex) < 0 {
        return reply, false;
      }
      if GetLogTerm(args.prevLogIndex) == args.prevLogTerm {
        AcceptEntries(args);
        reply := AppendEntriesReply(term, true, 0, APP_NORMAL);
      } else {
        var idx := SkipTerm(args.prevLogIndex);
        reply := AppendEntriesReply(term, false, idx + 1, APP_NORMAL);
      }
      DoPersist();
    }

    /** inRange: no read has left m_logs. */
    method AppendEntries(args: AppendEntriesArgs) returns (reply: AppendEntriesReply, inRange: bool)
      requires Sound(State()) && Contiguous(args)
      modifies this
      ensures inRange <==> args.term < old(term) || old(snapIndex) <= args.prevLogIndex
      ensures AppendAsWritten(old(State()), args) == if inRange then InRange(AppendOutcome(State(), reply))
          else OutOfRange
      ensures inRange ==> AppendOutcome(State(), reply) == HandleAppend(old(State()), args)
    {
      AppendInRange(State(), args);
      if args.term < term {
        return AppendEntriesReply(term, false, KEEP_NEXT_INDEX, APP_NORMAL), true;
      }
      if args.term > term {
        status := Follower;
        term := args.term;
        votedFor := NOBODY;
      }
      status := Follower;
      assert State() == Follow(old(State()), args.term);
      reply, inRange := CompareLogs(args);
    }

    /** The part of sendAppendEntries after the remote call. */
    method HearAppend(server: nat, args: AppendEntriesArgs, reply: AppendEntriesReply, appendNums: Counter)
      requires Sound(State()) && server < peers
      modifies this, appendNums
      ensures var tally := HandleAppendReply(old(State()), server, args, reply, old(appendNums.value));
              State() == tally.node && appendNums.value == tally.appendNums
    {
      if reply.appState == DISCONNECTED {
        return;
      }
      if reply.term > term {
        status := Follower;
        term := reply.term;
        votedFor := NOBODY;
        return;
      } else if reply.term < term {
        return;
      }
      if status != Leader {
        return;
      }
      if !reply.success {
        if reply.updateNextIndex != KEEP_NEXT_INDEX {
          nextIndex := nextIndex[server := reply.updateNextIndex];
        }
      } else {
        appendNums.value := appendNums.value + 1;
        matchIndex := matchIndex[server := Max(matchIndex[server], args.prevLogIndex + |args.entries|)];
        nextIndex := nextIndex[server := matchIndex[server] + 1];
        if appendNums.value >= 1 + peers / 2 {
          appendNums.value := 0;
          if |args.entries| > 0 && args.entries[|args.entries| - 1].term == term {
            commitIndex := Max(commitIndex, args.prevLogIndex + |args.entries|);
          }
        }
      }
    }

    // ------------------------------------------------ commands and applying

    method StartCommand(command: Command) returns (accepted: bool, newLogIndex: int, newLogTerm: int)
      requires Sound(State())
      modifies this
      ensures State() == Start(old(State()), command)
      ensures accepted == (old(status) == Leader)
      ensures accepted ==> newLogIndex == old(snapIndex + |logs|) + 1 && newLogTerm == term
                           && TermAt(State(), newLogIndex) == newLogTerm
      ensures !accepted ==> newLogIndex == -1 && newLogTerm == -1
    {
      if status != Leader {
        return false, -1, -1;
      }
      LastIndexSound(State());
      var entry := Entry(GetLastLogIndex() + 1, term, command);
      logs := logs + [entry];
      DoPersist();
      return true, entry.index, entry.term;
    }

    method GetApplyLogs() returns (msgs: seq<ApplyMsg>)
      requires Sound(State())
      modifies this
      ensures State() == Applied(old(State())) && msgs == ApplyLogs(old(State()))
    {
      msgs := [];
      while lastApplied < commitIndex
        invariant old(lastApplied) <= lastApplied <= commitIndex
        invariant State() == old(State()).(lastApplied := lastApplied)
        invariant msgs == ApplyLogs(old(State()))[..lastApplied - old(lastApplied)]
      {
        lastApplied := lastApplied + 1;
        msgs := msgs + [CommandMsg(logs[GetSlicesIndex(lastApplied)].command, lastApplied)];
      }
    }

    // ---------------------------------------------------------- snapshots

    /** The entries behind the index, copied one by one. */
    method EntriesAfter(index: int) returns (rest: seq<Entry>)
      requires Sound(State()) && snapIndex <= index <= snapIndex + |logs|
      ensures rest == logs[index - snapIndex..]
    {
      LastIndexSound(State());
      rest := [];
      var i := index + 1;
      while i <= GetLastLogIndex()
        invariant index + 1 <= i <= GetLastLogIndex() + 1
        invariant rest == logs[index - snapIndex..i - snapIndex - 1]
      {
        rest := rest + [logs[GetSlicesIndex(i)]];
        i := i + 1;
      }
    }

    method Snapshot(newLogIndex: int, data: Image)
      requires Sound(State())
      modifies this
      ensures State() == Compact(old(State()), newLogIndex, data)
    {
      if snapIndex >= newLogIndex || newLogIndex > commitIndex {
        return;
      }
      var newTerm := logs[GetSlicesIndex(newLogIndex)].term;
      var rest := EntriesAfter(newLogIndex);
      snapIndex := newLogIndex;
      snapTerm := newTerm;
      logs := rest;
      commitIndex := Max(commitIndex, newLogIndex);
      lastApplied := Max(lastApplied, newLogIndex);
      DoPersist();
      snapshot := data;
    }

    /** Keeps what the log has beyond the snapshot. */
    method ReplaceLog(args: InstallSnapshotArgs)
      requires Sound(State()) && snapIndex < args.lastIndex
      modifies this
      ensures State() == Installed(old(State()), args).(snapshot := old(snapshot))
    {
      LastIndexSound(State());
      if GetLastLogIndex() > args.lastIndex {
        logs := logs[GetSlicesIndex(args.lastIndex) + 1..];
      } else {
        logs := [];
      }
      commitIndex := Max(commitIndex, args.lastIndex);
      lastApplied := Max(lastApplied, args.lastIndex);
      snapIndex := args.lastIndex;
      snapTerm := args.lastTerm;
    }

    method FollowInstall(args: InstallSnapshotArgs)
      modifies this
      ensures State() == HeardInstall(old(State()), args)
    {
      if args.term > term {
        term := args.term;
        votedFor := NOBODY;
        status := Follower;
        DoPersist();
      }
      status := Follower;
    }

    method TakeSnapshot(args: InstallSnapshotArgs) returns (ending: Ending)
      requires Sound(State()) && snapIndex < args.lastIndex && applyChan.Valid()
      modifies this, applyChan
      ensures ending == old(PushEnding())
      ensures State() == if ending.Finished? then Persist(Installed(old(State()), args))
                         else Installed(old(State()), args).(snapshot := old(snapshot))
      ensures applyChan.Valid() && applyChan.closed == old(applyChan.closed)
      ensures applyChan.queue == if ending.Finished?
                then old(applyChan.queue) + [SnapshotMsg(args.data, args.lastTerm, args.lastIndex)]
                else old(applyChan.queue)
    {
      ReplaceLog(args);
      if !applyChan.closed && !applyChan.CanWrite() {
        return Waits;
      }
      var thrown := applyChan.Push(SnapshotMsg(args.data, args.lastTerm, args.lastIndex));
      if thrown {
        return Throws;
      }
      DoPersist();
      snapshot := args.data;
      ending := Finished;
    }

    /** A snapshot that is taken is pushed inside the locked section, before the node is saved: the section
        waits there while the channel is full, and a closed channel throws out of it. */
    method InstallSnapshot(args: InstallSnapshotArgs) returns (reply: InstallSnapshotReply, ending: Ending)
      requires Sound(State()) && SaneSnapshot(args) && applyChan.Valid()
      modifies this, applyChan
      ensures var out := HandleInstall(old(State()), args);
              && reply == out.reply
              && ending == (if out.pushed == [] then Finished else old(PushEnding()))
              && State() == (if ending.Finished? then out.node else AtPush(old(State()), args))
              && applyChan.queue == old(applyChan.queue) + if ending.Finished? then out.pushed else []
      ensures applyChan.Valid() && applyChan.closed == old(applyChan.closed)
    {
      if args.term < term {
        return InstallSnapshotReply(term), Finished;
      }
      FollowInstall(args);
      if args.lastIndex <= snapIndex {
        return InstallSnapshotReply(0), Finished;
      }
      reply := InstallSnapshotReply(term);
      ending := TakeSnapshot(args);
    }

    /** How a push to the channel ends in its present state. */
    function PushEnding(): Ending
      reads this, applyChan
    {
      if applyChan.closed then Throws else if applyChan.CanWrite() then Finished else Waits
    }

    /** The first locked section of leaderSendSnapShot: it does not ask whether this node still leads. */
    method MakeInstallArgs() returns (args: InstallSnapshotArgs)
      ensures args == BuildSnapshot(State())
    {
      args := InstallSnapshotArgs(term, me, snapIndex, snapTerm, snapshot);
    }

    /** The second locked section of leaderSendSnapShot. */
    method HearInstall(server: nat, args: InstallSnapshotArgs, reply: InstallSnapshotReply)
      requires Sound(State()) && server < peers
      modifies this
      ensures State() == HandleInstallReply(old(State()), server, args, reply)
    {
      if status != Leader || term != args.term {
        return;
      }
      if reply.term > term {
        term := reply.term;
        votedFor := NOBODY;
        status := Follower;
        DoPersist();
        return;
      }
      matchIndex := matchIndex[server := args.lastIndex];
      nextIndex := nextIndex[server := matchIndex[server] + 1];
    }
  }
}
