# A verified model of KVstorageBaseRaft-cpp

The repository is a replicated key-value store in three layers: Raft nodes that agree on a log
(`src/raftCore/raft.cc`), servers that apply the log (`src/raftCore/kvServer.cc`), and a skip list that
holds the data (`thirdParty/skipList/skipList.h`). This project models the three layers in Dafny and
proves what they promise, including where and why the promise is broken.

## How it is built

* **Nodes.** `RaftNode.dfy` has a node as a value and one function for each section of `raft.cc` that runs
  under `m_mtx`. `RaftServer.dfy` has the node as a class, with the loops and the updates in place of the
  source; each of its methods is proved to compute exactly the function of `RaftNode.dfy`.
* **Cluster.** The paper below is Ongaro and Ousterhout, "In Search of an Understandable Consensus Algorithm
  (Extended Version)". `Cluster.dfy` is the state machine of n nodes, n arbitrary. One action is one locked section,
  or one reply being heard. Calls may be lost, delayed and reordered; a reply is heard at most once. A run is a
  sequence of states, and `Step` is a total function on well-formed states.
* **Reads out of range.** `LogReads.dfy` has AppendEntries and the heartbeat the way they are written, with a read
  outside `m_logs` as an outcome of its own, and proves exactly when that outcome occurs and that the code is the
  model otherwise. `RangeRuns.dfy` reaches both outcomes; `HeartbeatRange.dfy` proves that in runs without
  stale tails no heartbeat reads out of range.
* **Safety that the code has.** `ElectionSafety.dfy`, `EntryIdentity.dfy`, `CommitQuorum.dfy`,
  `WriteAhead.dfy`, `Compaction.dfy`, `CatchUp.dfy`, `SnapshotCatchUp.dfy` and `MatchIndex.dfy` hold for every run
  of the code as written.
* **Sections.** `VoteHandlers.dfy`, `AppendHandlers.dfy` and `SnapshotHandlers.dfy` say what each locked section
  promises in terms of the fields of the node, and what two nodes make of a whole exchange.
* **Safety that the code lacks.** `AppendEntries` overwrites conflicting slots one at a time and never cuts
  what lies behind them (raft.cc:86-98). `StaleTail.dfy` proves exactly when one `AppendEntries` differs from
  the paper's receiver rule, and gives a run of five nodes after which two of them have committed different
  commands at one index. `LogPaths.dfy`, `LeaderCompleteness.dfy` and `StateMachineSafety.dfy` then prove
  Log Matching, Leader Completeness and State Machine Safety for every run in which this branch is not taken
  (`Clean`), with compaction and snapshot installation in play; an AppendEntries is clean exactly when its effect
  on the log is the one the paper asks for (`CleanIsPaper`). `MatchingRuns.dfy` proves that these runs are exactly
  the ones that have Log Matching.
* **A departure that does no harm.** `InstallSnapshot` keeps a suffix without comparing the term at the
  snapshot's index (raft.cc:495-499), which section 7 of the paper forbids. The theorems above allow it: a node
  whose log does not fit its snapshot commits nothing behind it, answers with success there only to a message that
  ends in what is committed already, cannot win an election, and loses the suffix to the next non-empty message.
* **Servers.** `Channel.dfy` is the bounded channel, `ApplyPipeline.dfy` couples every node of the cluster with its
  applier, channel and server and interleaves them freely, `KvStore.dfy` says what one message does,
  `KvServer.dfy` is the class with the apply loop, `ExactlyOnce.dfy` is about retries, `ReadRequests.dfy` about
  reads that are answered in between, and `Replicas.dfy` carries State Machine Safety up to the servers: they all
  draw their commands from one sequence. Installed snapshots break the agreement of the stores (`SnapshotRuns.dfy`) but not of the sets of keys (`KeySets.dfy`).
  `ThreeNodes.dfy` is the common beginning of the runs with three nodes.
* **Skip list.** `SkipList.dfy` is the pointer structure with arrays of forward pointers, spliced in place.
  Level 0 is a ghost sequence of nodes; the class invariant says that each forward pointer leads to the next
  node of that sequence whose tower is high enough (`SkipLevels.dfy`), and `SkipKeys.dfy` has sorted sequences as maps.

History variables are fields that no handler reads: `Election.wins`, `Beat.majorities`, `Beat.endIndex`,
`Beat.endTerm`, `State.created`, `State.ledger`, `State.commits`, `Pipe.events`, `Pipe.ran`; `Past` in
`LogPaths.dfy` and `Ack` in `LeaderCompleteness.dfy` are histories kept beside a run.

## Where the model had to choose

* `raft.cc:78-82` fills in a rejection when the previous index is below the snapshot but does not return, and
  then reads out of range (`LogReads.AppendInRange`). In the cluster the rejection is returned there; the class
  `RaftServer.Raft` stops at the read and says so.
* That rejection can give a leader a next index beyond its own log, and then the heartbeat reads out of range
  (`RangeRuns.HeartbeatOutOfRange`). In the cluster the heartbeat action is enabled only when it does not
  (`CanBeat`); in clean runs that holds no leader back (`HeartbeatRange.LeadersCanBeat`).
* `leaderSendSnapShot` reads the node's state when it runs and does not look again whether the node still leads
  (raft.cc:561-570): posting and building a snapshot are two actions, and a message may carry a term that its
  sender does not lead.
* An InstallSnapshot reply that the source leaves unset (outdated snapshot) has term 0, the default.
* The persister is the record of what it was last given. Its files are truncated when it is constructed
  (Persister.cc:66-77), so there are no restarts; a crashed node is one that takes no more actions.
* `DEFER` in `AppendEntries` and `RequestVote` is a call at the end of the method.
* Integers are unbounded. Serialised commands and snapshots are typed values. The heights that `rand` draws are
  parameters, and nothing depends on them.
* `insert_element` and `delete_element` contain the same walk; here it is one method, `WalkTo`.
* `Append` overwrites the value like `Put`, as the code does (kvServer.cc:31-38).
* `Snapshot` is called by the server for the command it has just run, with the dump of its present store
  (kvServer.cc:142-144); in the pipeline the call may come at any time until the server handles its next message.
* Waiting clients come and go at any time: a turn of the pipeline may set the queues of one server to anything. A push
  to a full queue waits: in the classes the call ends there and answers `Waits`, with everything before the push
  done; in the pipeline the turn is enabled once there is room.

## Model

| member | source | states |
|---|---|---|
| VoteHandlers.VoteAnswered | src/raftCore/raft.cc:640-689 | a node answers with the larger of the two terms, and votes exactly for a candidate whose term and log are not behind its own and who has no rival in the term; the vote is saved |
| VoteHandlers.VoteHeard | src/raftCore/raft.cc:768-806 | a higher term in the reply ends the candidacy, saved; a granted vote of the own term counts; the vote that makes more than half wins and sets every peer's next index behind the log |
| VoteHandlers.ElectionStarted | src/raftCore/raft.cc:224-268 | a node that does not lead starts the next term with its own vote, saved, and asks with the end of its log |
| VoteHandlers.FreshVoteCounts | src/raftCore/raft.cc:653-688 | whoever is in no later term and has a log that is not ahead grants the vote of a new election, and the candidate counts it |
| VoteHandlers.RefusalTeaches | src/raftCore/raft.cc:644-651 | an outdated candidate that hears the refusal is then a follower of the voter's term, without a vote and saved |
| ElectionSafety.ElectionSafe | src/raftCore/raft.cc:224-268 | Election Safety: a term has one leader over the whole run, at any two times, although vote replies are counted without looking at the status or the request's term |
| ElectionSafety.OneWinPerElection | src/raftCore/raft.cc:787-804 | an election makes its candidate Leader at most once, although the shared counter is reset to 0 |
| ElectionSafety.RunElections | src/raftCore/raft.cc:640-689 | in every reachable state votes bind their voters, counters equal the number of distinct voters, and leaders were elected |
| ElectionSafety.WinnersAgree | src/raftCore/raft.cc:760-806 | two elections of one term that both reached a majority are one election |
| ElectionSafety.HearVoteKeeps | src/raftCore/raft.cc:768-806 | counting a vote, even a late one, keeps the election invariant |
| ElectionSafety.AnswerVoteKeeps | src/raftCore/raft.cc:640-689 | answering a request, even a delayed one, gives no second vote in a term |
| Quorums.QuorumsMeet | src/raftCore/raft.cc:787-788 | two majorities share a node |
| Quorums.NoSecondMajority | src/raftCore/raft.cc:171-191 | what is left after a majority was counted is no majority, for every cluster size |
| Cluster.RunStructured | src/raftCore/raft.cc:85-116 | node invariant over every run: slot k holds index snapshot+1+k, snapshot <= applied <= commit <= last, entry terms between 1 and the current term; all of these only grow |
| Cluster.StructureKept | src/raftCore/raft.cc:283-347 | every action keeps the structure: all calls of a round end at the leader's last index and carry its term, and a successful reply carries the request's term |
| Cluster.ActorGrows | src/raftCore/raft.cc:424-436 | every locked section keeps the node sound, lowers no index and no term, keeps a vote for the term, and only counting votes makes a leader |
| AppendHandlers.AppendAnswered | src/raftCore/raft.cc:49-117 | a stale message changes nothing and teaches the term; any other makes a saved follower of its term and is accepted exactly when the previous entry is there |
| AppendHandlers.AppendAccepted | src/raftCore/raft.cc:85-104 | on acceptance a covered slot keeps its entry if its term agrees and takes the sent one otherwise, no other slot changes, and the commit index follows the leader's within the log |
| AppendHandlers.RejectionHint | src/raftCore/raft.cc:73-117 | the hint of a rejection leads behind a log that is too short, behind the snapshot, or behind the last entry that is below the commit index or of another term |
| AppendHandlers.SuccessHeard | src/raftCore/raft.cc:169-192 | a success, early or late, leaves as match index the larger of what it was and of the message's end, the next index behind it and every other peer alone; the commit index rises exactly with more than half of the nodes and a last entry of the leader's term |
| AppendHandlers.RejectionHeard | src/raftCore/raft.cc:163-167 | a rejection moves the next index of this peer to the hint, unless it says to keep it, and nothing else |
| AppendHandlers.OtherReplyHeard | src/raftCore/raft.cc:137-160 | a reply with a higher term makes a follower of that term; one that does not concern the node leaves it alone |
| AppendHandlers.StaleLeaderLearns | src/raftCore/raft.cc:53-60 | a leader that is behind learns the term from the rejection of its message and stops leading |
| AppendHandlers.Dispatched | src/raftCore/raft.cc:283-347 | a heartbeat sends nothing to itself, the snapshot to whom there are no entries for any more, and otherwise all entries behind the previous index, with its term and the commit index |
| Cluster.SnapTasksPosted | src/raftCore/raft.cc:290-299 | a heartbeat round posts one snapshot task for each peer that has fallen behind the leader's snapshot, in the order of the peers, and no others |
| AppendHandlers.CommandTaken | src/raftCore/raft.cc:833-857 | only a leader takes a command, as the next entry of its term, saved |
| AppendHandlers.HandedOver | src/raftCore/raft.cc:424-436 | the commands from behind the applied index up to the commit index are handed over in order, and only once |
| MatchIndex.MatchFallsIff | src/raftCore/raft.cc:169-178 | in every run, while a node leads a term, its match index for a peer falls in a step if and only if the step is that peer's late reply to a snapshot of the term that ends below it |
| MatchIndex.MatchStays | src/raftCore/raft.cc:169-178 | so it never falls over a stretch of a run in which the node leads and no such reply is heard |
| MatchIndex.LateSnapshotLowers | src/raftCore/raft.cc:591-593 | a leader whose match index such a reply lowers |
| SnapshotHandlers.InstallAnswered | src/raftCore/raft.cc:469-514 | an old leader is refused with the node's term; a snapshot is taken exactly when it is newer than the node's, is pushed then, and leaves what the log has behind it, saved |
| SnapshotHandlers.InstallHeard | src/raftCore/raft.cc:575-594 | a node that still leads the message's term goes on right behind the snapshot for this peer, the others' indices stay, or it steps down to a higher term, saved |
| SnapshotHandlers.StaleSnapshotRefused | src/raftCore/raft.cc:472-475 | a leader whose term is over learns so from the refusal of its snapshot |
| SnapshotHandlers.Compacted | src/raftCore/raft.cc:955-983 | a snapshot is made exactly between the node's snapshot and its commit index, with the term of the entry there, and keeps all entries behind it |
| LogReads.AppendInRange | src/raftCore/raft.cc:49-117 | AppendEntries as written reads outside the log if and only if the message is not stale and its previous index is below the snapshot; otherwise it does what the model's handler does |
| LogReads.BeatInRange | src/raftCore/raft.cc:283-347 | a heartbeat as written reads outside the log if and only if some peer's next index is more than one past the leader's log; otherwise it dispatches the model's round |
| RangeRuns.HeartbeatOutOfRange | src/raftCore/raft.cc:447-458 | a reachable state of five nodes in which a leader's heartbeat reads outside its log |
| RangeRuns.AppendOutOfRange | src/raftCore/raft.cc:78-82 | a state of three nodes, reachable without stale tails, in which a late message makes AppendEntries read outside the log |
| HeartbeatRange.LeadersCanBeat | src/raftCore/raft.cc:283-347 | in clean runs no leader's heartbeat ever reads outside its log, although rejection hints, late replies and snapshot replies set the next index |
| HeartbeatRange.HintBound | src/raftCore/raft.cc:73-116 | a rejection that counts in its term asks for nothing past the leader's log, also when it names the end of the follower's snapshot |
| EntryIdentity.EntriesAgree | src/raftCore/raft.cc:833-857 | across all logs and all messages, at any two times of a run, index and term determine the command, also with stale tails |
| EntryIdentity.StartIsFresh | src/raftCore/raft.cc:841-845 | a leader's new entry takes a term and index that were never used |
| EntryIdentity.CommitRegion | src/raftCore/raft.cc:85-104 | a follower that accepts then holds the leader's entries, command for command, and commits nothing past the end of the message |
| EntryIdentity.AcceptedRegion | src/raftCore/raft.cc:86-103 | the same for one node whose entries and message agree where index and term agree |
| CommitQuorum.CommitHasQuorum | src/raftCore/raft.cc:169-192 | behind every commit there is the round that made it and a majority of distinct nodes, the leader among them; when each confirmed that round, before the commit, it was in the term and had the committed entry in its log or as the last one of its snapshot, and it keeps it, or a snapshot that reaches it, as long as it stays in the term |
| CommitQuorum.CommitRecorded | src/raftCore/raft.cc:180-189 | a leader's commit index rises through replies only by a recorded commit of its own term |
| CommitQuorum.AckWitness | src/raftCore/raft.cc:85-104 | whoever confirmed a round was, at the step in which it did, in the round's term and had the round's last entry in its log or as the last one of its snapshot |
| CommitQuorum.OneMajorityPerBeat | src/raftCore/raft.cc:171-191 | the commit branch of a heartbeat round runs at most once |
| CommitQuorum.RunQuorums | src/raftCore/raft.cc:283-347 | in every reachable state the ledger of each term agrees with its leader's log and messages, and acknowledgements are kept |
| CommitQuorum.AppendHolds | src/raftCore/raft.cc:86-98 | no message takes away an entry that the term's ledger fixes |
| WriteAhead.RunSaved | src/raftCore/raft.cc:629-632 | between any two locked sections the saved record has the log and the marker of memory, a term no greater, and the term and vote of memory whenever memory holds a vote; a granted vote was saved |
| WriteAhead.VoteHandlersSave | src/raftCore/raft.cc:233-239 | every vote handler saves what it changes |
| WriteAhead.AppendHandlerSaves | src/raftCore/raft.cc:62 | AppendEntries saves what it changes, or changes nothing |
| WriteAhead.AppendReplySaves | src/raftCore/raft.cc:145-150 | a reply saves nothing, and changes only what may stay unsaved: the step-down on a reply drops the vote with the term |
| Compaction.SameVote | src/raftCore/raft.cc:691-708 | a compacted node asks for votes and answers requests like one with its full log |
| Compaction.SameAppend | src/raftCore/raft.cc:49-117 | it answers AppendEntries alike, for every previous index at or above the marker, and goes on refining the full log |
| Compaction.SameHint | src/raftCore/raft.cc:105-116 | the backtracking loop ends at the same index |
| Compaction.SameMessage | src/raftCore/raft.cc:318-329 | the entries and the previous term it sends are those of the full log |
| Compaction.SameCommands | src/raftCore/raft.cc:424-436 | it hands the same commands to the state machine |
| Compaction.SameStart | src/raftCore/raft.cc:833-857 | Start appends the same entry |
| Compaction.CompactInvisible | src/raftCore/raft.cc:955-983 | Snapshot at any index leaves the full log that is refined as it was; past the applied index it moves the applied index and nothing else |
| Compaction.CompactSkips | src/raftCore/raft.cc:961-975 | the commands between the applied index and such a snapshot are never handed over, and all later ones are |
| CatchUp.CatchUpBound | src/raftCore/raft.cc:105-116 | a follower, compacted or not, is brought up to date after at most 1 + (maximal runs of one term in its log) rejections, and one more if it has a snapshot that the hints can run into |
| CatchUp.RejectionProgress | src/raftCore/raft.cc:163-167 | every rejection strictly lowers the next index, or moves it right behind the follower's snapshot, where the next message is accepted, and leaves the pair as it was otherwise |
| CatchUp.HintShape | src/raftCore/raft.cc:105-116 | the hint skips at least the mismatch and stops where the term changes, unless the commit index stops it |
| CatchUp.CommittedAccepted | src/raftCore/raft.cc:73-77 | between the follower's snapshot and its commit index nothing is rejected |
| CatchUp.NewLeaderAsks | src/raftCore/raft.cc:787-804 | a new leader can send its first heartbeat, and asks every peer with an empty message about the end of its own log |
| CatchUp.StaysCaughtUp | src/raftCore/raft.cc:169-178 | after a success the leader's next message to this peer is empty, starts behind the leader's last entry and is accepted too |
| SnapshotCatchUp.SnapshotStage | src/raftCore/raft.cc:592-593 | where the leader has to send its snapshot and it is new to the follower, the next heartbeat sends the entries right behind it, the follower accepts them, and no other peer's indices change |
| SnapshotCatchUp.CaughtUpBound | src/raftCore/raft.cc:283-347 | through a snapshot or not, a message is accepted after at most 1 + (maximal runs of one term in the follower's log) exchanges, and one more for each of: hints that can run into the follower's snapshot, the leader's snapshot, a follower's snapshot newer than that |
| SnapshotCatchUp.SnapshotProgress | src/raftCore/raft.cc:575-594 | a snapshot, new to the follower or not, moves the leader right behind it and keeps the two agreeing on what is committed |
| StaleTail.PaperUnlessStaleTail | src/raftCore/raft.cc:86-98 | one AppendEntries does what the paper's receiver rule does if and only if it is not the case that it meets a conflict and the log reaches past it |
| StaleTail.PaperIsPrefix | docs/流程/raft算法日志同步流程.md:243 | in every case the paper's log is the beginning of the code's |
| StaleTail.SafetyFails | src/raftCore/raft.cc:86-98 | a reachable state of five nodes in which two have committed different commands at index 1, a leader lacks an entry committed before, and two logs agree at index 2 but not at 1 |
| StaleTail.KeepsTail | src/raftCore/raft.cc:86-98 | the message of that run that leaves an entry of term 1 behind one of term 2 |
| LogPaths.CleanIsPaper | src/raftCore/raft.cc:86-98 | in every reachable state, an accepted message takes the clean branch if and only if its effect on the log is the one the paper's receiver rule asks for |
| LogPaths.PaperSnapshotIff | src/raftCore/raft.cc:492-499 | the log after a snapshot differs from the one that section 7 of the paper asks for if and only if a longer log has another term at the snapshot's last index |
| LogPaths.SameUpTo | src/raftCore/raft.cc:73-77 | logs whose entries were made at the end of just the log before them agree up to any index at which their terms agree |
| LogPaths.AcceptPath | src/raftCore/raft.cc:85-104 | an accepted message that leaves no stale tail makes the log the longer of the two, which agree on the rest, or says nothing past a snapshot that the log does not fit |
| LogPaths.InstallPath | src/raftCore/raft.cc:492-503 | after a snapshot the log ends like the longer of the two, whether or not it fits the snapshot |
| LogPaths.PathKept | src/raftCore/raft.cc:833-857 | every clean action keeps all logs, messages, snapshots and vote requests on the paths that Start made |
| LogPaths.WholeIs | src/raftCore/raft.cc:698-708 | the last index and term determine the whole log that a node's own log is the end of |
| LeaderCompleteness.ChosenStays | src/raftCore/raft.cc:640-689 | an entry that a leader committed is in the log of every later leader |
| LeaderCompleteness.CommittedAgree | src/raftCore/raft.cc:169-192 | two committed logs agree as far as both are committed |
| LeaderCompleteness.WinnerCovers | src/raftCore/raft.cc:787-804 | whoever wins has everything its voters acknowledged, unless it was committed before they did or an earlier leader lacks it, even if the winner installed a snapshot while it was a candidate |
| LeaderCompleteness.SuccessHas | src/raftCore/raft.cc:85-104 | who answers success then has the last entry of the message, or it is committed already |
| LeaderCompleteness.CommitAcked | src/raftCore/raft.cc:169-192 | the commit branch runs only for a round whose last entry, of the leader's own term, a majority has acknowledged |
| LeaderCompleteness.UpToDateCovers | src/raftCore/raft.cc:691-696 | a request found up to date covers every entry of the voter |
| LeaderCompleteness.SnapSecures | src/raftCore/raft.cc:492-503 | a committed snapshot that replaces a log has what the log had, unless a later leader lacks it |
| LeaderCompleteness.BallotsKept | src/raftCore/raft.cc:224-268 | every clean action keeps what votes and acknowledgements establish |
| StateMachineSafety.CleanIsRun | src/raftCore/raft.cc:86-98 | clean runs are runs of the code, so all that holds for every run holds for them |
| StateMachineSafety.LogMatching | src/raftCore/raft.cc:85-104 | in clean runs, nodes with entries of one term at an index have the same entries up to it, at any two times |
| MatchingRuns.LogMatchingIff | src/raftCore/raft.cc:86-98 | a run has Log Matching, between any two nodes at any two times, if and only if no step of it leaves a stale tail |
| MatchingRuns.TailMismatch | src/raftCore/raft.cc:86-98 | a message that leaves a stale tail makes the node's log disagree with what it was: the last entry is the same and one below it is not |
| StateMachineSafety.LeaderComplete | src/raftCore/raft.cc:169-192 | in clean runs, a committed entry is in the log of every leader of a higher term or covered by its snapshot, whether the term began before or after the commit |
| StateMachineSafety.StateMachineSafe | src/raftCore/raft.cc:424-436 | in clean runs, no two nodes ever have different entries committed at one index, whatever suffixes InstallSnapshot kept |
| StateMachineSafety.OverlaidCommitted | src/raftCore/raft.cc:99-103 | a message leaves what is committed in place, and the new commit index covers only what the leader had committed |
| StateMachineSafety.CommitChosen | src/raftCore/raft.cc:180-189 | a reply moves the commit index only to the index of a newly recorded commit of the leader's own term |
| StateMachineSafety.RaftInvKept | src/raftCore/raft.cc:469-514 | every clean action, snapshots included, keeps the whole invariant |
| Replicas.SameCommands | src/raftCore/kvServer.cc:222-236 | in clean runs of the whole system no two servers run different commands at one index |
| Replicas.OneSequence | src/raftCore/kvServer.cc:222-236 | in every state of a clean run there is one sequence from which all servers draw what they run, whatever snapshots they installed, and each store has just the keys that the sequence writes up to the server's index, if retries repeat their key and new requests have increasing ids |
| Replicas.KeysSurvive | src/raftCore/kvServer.cc:267-274 | a server that ran commands and installed snapshots has the keys that the commands up to its index write, as a server that ran them all has recorded them |
| ThreeNodes.ClusterOf | src/raftCore/raft.cc:196-217 | the cluster of a clean run of the system goes through a clean run |
| SnapshotRuns.SnapshotsDiffer | thirdParty/skipList/skipList.h:305 | a clean run after which two servers have handled the same index and differ in a value and in the table of requests: one of them installed a snapshot |
| KvStore.CommandExecutes | src/raftCore/kvServer.cc:122-148 | a Put or an Append behind the marker whose id is larger than the client's last one sets the key and the client's id; nothing else that is delivered changes the store or the table |
| KvStore.ClientTold | src/raftCore/kvServer.cc:245-256 | every delivery behind the marker adds its request to the channel of its index, if a client waits there, and touches no other channel |
| KvStore.SnapshotLoads | src/raftCore/kvServer.cc:267-274 | a snapshot adds the keys that were not there, with themselves as values, and moves the marker; what was stored, the table and the channels stay |
| KvStore.SnapshotAgreesIff | src/raftCore/kvServer.h:184-190 | a server that loads a snapshot then has the store of the server that made it if and only if what it had agrees with that store and every key it did not have is its own value there, and the same table if and only if it had it before |
| KeySets.SnapshotKeys | src/raftCore/kvServer.cc:267-274 | an installed snapshot, newer or older than what was handled, leaves the keys of the longer sequence |
| KeySets.RetryKnown | src/raftCore/kvServer.cc:150-157 | whatever the table takes for a retry is one, if new requests have increasing ids |
| Replicas.ServersAgree | src/raftCore/kvServer.cc:122-148 | of two servers that installed no snapshot, the one that has run fewer commands has the map, the table and the marker that the other had after as many |
| Replicas.ServerWithoutRetries | src/raftCore/kvServer.cc:133-140 | in every run, the store of a server without installed snapshots is that of its commands with the retries deleted, if new requests have increasing ids |
| Replicas.RunsFromOne | src/raftCore/raft.cc:424-436 | without snapshots the indices that run are 1, 2, 3, ... |
| ApplyPipeline.RunInOrder | src/raftCore/raft.cc:196-217 | under every interleaving, indices run in increasing order, nothing runs that an installed snapshot covers, and when an index runs every lower one has run or is covered |
| ApplyPipeline.RunOnce | src/raftCore/kvServer.cc:129-131 | every index up to the highest one handled ran exactly once or is covered by an installed snapshot |
| ApplyPipeline.RunReruns | src/raftCore/kvServer.cc:222-236 | dropped commands, the interleaving and the waiting clients leave no trace: map, table and marker of a server are what its events make them |
| ApplyPipeline.RunBounded | thirdParty/msd/channel.hpp:143-159 | the channel stays within its capacity, and the server behind its node |
| ApplyPipeline.FlowOvertaken | src/raftCore/raft.cc:500-512 | a snapshot that is pushed while a batch waits overtakes it without harm |
| ApplyPipeline.FlowCollected | src/raftCore/raft.cc:424-436 | a new batch continues the one before, or the snapshot pushed since |
| ApplyPipeline.TurnKeeps | src/raftCore/raft.cc:196-217 | every turn of applier, server or cluster keeps the invariant of the whole system |
| ApplyPipeline.QuietActor | src/raftCore/raft.cc:49-117 | the other locked sections move neither the applied index nor the snapshot |
| ExactlyOnce.ExecutedIdsIncrease | src/raftCore/kvServer.cc:150-157 | for every command sequence the executed ids of one client strictly increase |
| ExactlyOnce.NeverTwice | src/raftCore/kvServer.cc:133-140 | no request executes twice |
| ExactlyOnce.ExactlyOnceIff | src/raftCore/kvServer.cc:133-140 | every request executes at its first occurrence and only there, if and only if each client's new requests have increasing ids |
| ExactlyOnce.RetriesDeleted | src/raftCore/kvServer.cc:31-47 | the final map is that of the log with the retries deleted, written by a store without a table of requests |
| ExactlyOnce.TableHolds | src/raftCore/kvServer.cc:150-157 | the table holds each client's last executed id, which is its largest |
| ReadRequests.ExactlyOnceWithReads | src/raftCore/kvServer.cc:18-29 | with answered reads in between, which set the client's id in the table, every request executes at its first delivery and only there, if and only if each new write has a larger id than the client's last read or new write, and no retry has |
| ReadRequests.ReadsInvisible | src/raftCore/kvServer.cc:18-29 | under that condition servers that were given the same commands have the same store, that of the commands without retries, whatever reads each answered |
| ReadRequests.LateReadSplits | src/raftCore/kvServer.cc:82-92 | a read that is answered late lowers the client's id at one server; a retry then runs a second time there, and two servers that were given the same commands differ |
| ReadRequests.NewIsFirst | src/raftCore/kvServer.cc:150-157 | a request is new among the happenings at a server exactly when it is new in the log |
| KvServers.ReplicasAgree | src/raftCore/kvServer.cc:222-236 | two new servers are given the same messages: each reads them all or stops behind one whose client's channel is full, and when they have read as many they have the same map, table and marker and make the same snapshot, whatever heights their towers draw, whatever sizes their persisters report and whatever clients wait |
| KvServers.KvServer.Serve | src/raftCore/kvServer.cc:222-236 | the loop over a sequence of messages does to map, table and marker what KvStore says, for any clients that wait meanwhile, up to and with the first message whose client's channel is full, where it waits |
| KvServers.KvServer.constructor | src/raftCore/kvServer.cc:318-322 | a new server is empty |
| KvServers.KvServer.ReadOne | src/raftCore/kvServer.cc:222-236 | one turn of the loop takes the oldest message and does what KvStore says, but for a push that has to wait |
| KvServers.KvServer.GetCommandFromRaft | src/raftCore/kvServer.cc:122-148 | a Put or an Append past the marker that is no retry sets key and id, whatever is dropped or a retry changes neither, a snapshot is asked for when the log is large, and last the request is added to the channel of its index, or the push waits with all the rest done |
| KvServers.KvServer.ExecuteGet | src/raftCore/kvServer.cc:18-29 | answers with the map's value, if it has the key, and sets the client's id in the table, up or down; nothing else changes |
| KvServers.KvServer.ExecuteWrite | src/raftCore/kvServer.cc:31-47 | the key is set, new or not, and the client's id recorded |
| KvServers.KvServer.SendMessageToWaitChan | src/raftCore/kvServer.cc:245-256 | the request is added to the channel of that index and to no other; on a full one the push waits and nothing changes |
| KvServers.KvServer.IfNeedToSendSnapshot | src/raftCore/kvServer.cc:258-265 | a snapshot of the present store is handed to the node when the log is larger than a tenth of the bound |
| KvServers.OverTenth | src/raftCore/kvServer.cc:258-265 | a size is over the tenth part of a bound exactly when ten times the size is over the bound, and what that means for a negative bound |
| KvServers.KvServer.GetSnapshotFromRaft | src/raftCore/kvServer.cc:267-274 | the image is loaded and its index remembered; the table of requests is untouched |
| KvServers.KvServer.GetSnapshotData | src/raftCore/kvServer.h:175-182 | the image is the dump in key order and the last snapshot index, and the store is unchanged |
| KvServers.KvServer.ParseFromString | src/raftCore/kvServer.h:184-190 | loading an image adds its keys and sets the snapshot index |
| KvStore.LessTrichotomy | thirdParty/skipList/skipList.h:188-190 | the order of strings is strict and total |
| SkipLists.SkipList.Search | thirdParty/skipList/skipList.h:407-431 | finds a key exactly when the map has it, with the map's value |
| SkipLists.SkipList.InsertElement | thirdParty/skipList/skipList.h:177-235 | adds only when absent one tower with the key, the value and the drawn height, leaves all other towers as they are and raises the level to it; answers 1 and changes nothing otherwise |
| SkipLists.SkipList.DeleteElement | thirdParty/skipList/skipList.h:337-371 | removes the tower of the key and no other, does nothing when the key is absent |
| SkipLists.SkipList.InsertSetElement | thirdParty/skipList/skipList.h:379-385 | is map update |
| SkipLists.SkipList.Size | thirdParty/skipList/skipList.h:310-313 | is the size of the map |
| SkipLists.SkipList.LevelShape | thirdParty/skipList/skipList.h:188-229 | a walk on a level meets exactly the towers of level 0 that reach it, strictly ascending; levels above the current one are empty and the current one is not, unless it is 0 |
| SkipLists.SkipList.GetRandomLevel | thirdParty/skipList/skipList.h:476-483 | one more than the number of heads, but no more than the maximum level; 0 when that is 0 |
| SkipLists.SkipList.constructor | thirdParty/skipList/skipList.h:441-450 | a new list is valid and empty |
| SkipLists.SkipList.WalkTo | thirdParty/skipList/skipList.h:188-199 | finds on every level the last tower before the key |
| SkipLists.SkipList.SpliceIn | thirdParty/skipList/skipList.h:222-229 | linking a tower level by level gives the list with the tower in its place |
| SkipLists.SkipList.UnlinkAll | thirdParty/skipList/skipList.h:354-359 | unlinking stops at the first level that does not lead to the tower, and every pointer past it is right |
| SkipLists.SkipList.LowerLevel | thirdParty/skipList/skipList.h:361-364 | gives up exactly the empty levels |
| SkipLists.SkipList.DumpFile | thirdParty/skipList/skipList.h:255-274 | the keys and values in ascending order of the keys |
| SkipLists.SkipList.LoadFile | thirdParty/skipList/skipList.h:278-307 | adds each dumped key that is absent with itself as its value; an empty string does nothing |
| SkipLists.LoadedUnion | thirdParty/skipList/skipList.h:278-307 | loading unites the keys, and every key that was there keeps its value |
| SkipLists.RoundTripIff | thirdParty/skipList/skipList.h:305 | a dump loaded into an empty list gives the map back if and only if every value is its own key |
| SkipLists.RepairedRoundTrip | thirdParty/skipList/skipList.h:278-307 | with that line reading the dumped value, the round trip holds for every list |
| SkipLevels.InsertNext | thirdParty/skipList/skipList.h:222-229 | a new tower takes over the pointers that jumped across its place, up to its height, and no others |
| SkipLevels.RemoveNext | thirdParty/skipList/skipList.h:354-359 | without a tower its predecessors take over its pointers, and every other pointer leads where it led |
| SkipKeys.SortedUnique | thirdParty/skipList/skipList.h:255-274 | a map has one sorted listing |
| SkipKeys.InsertMap | thirdParty/skipList/skipList.h:201-229 | inserting where the key splits the list is map update and keeps the order |
| SkipKeys.RemoveMap | thirdParty/skipList/skipList.h:354-371 | removing a slot removes its key and keeps the order |
| Channels.Channel.Push | thirdParty/msd/channel.hpp:143-159 | appends, or throws and changes nothing on a closed channel; the bound is kept |
| Channels.Channel.Pop | thirdParty/msd/channel.hpp:162-181 | takes the oldest value, nothing from a channel that is closed and drained |
| Channels.Channel.TryPop | thirdParty/msd/channel.hpp:230-245 | takes the oldest value or gives up |
| Channels.Channel.Close | thirdParty/msd/channel.hpp:194-200 | closes and keeps what is queued |
| RaftServer.Raft.constructor | src/raftCore/raft.cc:867-891 | a new node is the initial node of the model |
| RaftServer.Raft.DoElection | src/raftCore/raft.cc:224-268 | the method body computes Elect (VoteHandlers.ElectionStarted) and posts one task for each peer with the request of the new term |
| RaftServer.Raft.RequestVote | src/raftCore/raft.cc:640-689 | the method body computes HandleRequestVote, of which VoteHandlers.VoteAnswered says what it answers |
| RaftServer.Raft.HearVote | src/raftCore/raft.cc:768-806 | the method body computes HandleVoteReply and the shared counter (VoteHandlers.VoteHeard) |
| RaftServer.Raft.DoHeartBeat | src/raftCore/raft.cc:283-347 | leaves the node as it is and dispatches the round of the model, one task for each peer, or stops where a read leaves the log |
| RaftServer.Raft.AppendEntries | src/raftCore/raft.cc:49-117 | the method body with its loops computes HandleAppend (AppendHandlers.AppendAnswered), or stops where a read leaves the log |
| RaftServer.Raft.CopyEntries | src/raftCore/raft.cc:86-98 | the loop over the entries lays the message over the log |
| RaftServer.Raft.SkipTerm | src/raftCore/raft.cc:105-116 | the backtracking loop ends at Backtrack |
| RaftServer.Raft.HearAppend | src/raftCore/raft.cc:145-191 | the method body computes HandleAppendReply and the shared counter (AppendHandlers.SuccessHeard, RejectionHeard, OtherReplyHeard) |
| RaftServer.Raft.StartCommand | src/raftCore/raft.cc:833-857 | the method body computes Start (AppendHandlers.CommandTaken) and answers the new index and term, or -1 |
| RaftServer.Raft.GetApplyLogs | src/raftCore/raft.cc:424-436 | the loop computes Applied and the commands up to the commit index (AppendHandlers.HandedOver) |
| RaftServer.Raft.Snapshot | src/raftCore/raft.cc:955-983 | the method body computes Compact (SnapshotHandlers.Compacted) |
| RaftServer.Raft.InstallSnapshot | src/raftCore/raft.cc:469-514 | computes HandleInstall and pushes the snapshot if it is taken; on a full channel it waits, and on a closed one it throws, with the log replaced and neither the snapshot nor the node saved |
| RaftServer.PushUnsaved | src/raftCore/raft.cc:503-513 | while the push waits, and when it throws, everything is as after the installation but the saved record and the saved snapshot, which are the old ones or those of the step down |
| RaftServer.Raft.MakeInstallArgs | src/raftCore/raft.cc:561-570 | the message carries the node's present term and snapshot |
| RaftServer.Raft.HearInstall | src/raftCore/raft.cc:575-594 | the method body computes HandleInstallReply (SnapshotHandlers.InstallHeard) |
| RaftNode.Backtrack | src/raftCore/raft.cc:105-116 | everything the loop passes is of the term and at or above the commit index, and what it stops at is not |
| RaftNode.AppendSteady | src/raftCore/raft.cc:49-117 | AppendEntries keeps a node sound, lowers nothing and makes no leader |
| RaftNode.InstallSteady | src/raftCore/raft.cc:469-514 | so does InstallSnapshot |
| RaftNode.CompactSteady | src/raftCore/raft.cc:955-983 | so does Snapshot |
| RaftNode.AppendReplySteady | src/raftCore/raft.cc:145-191 | so does a reply to AppendEntries, given that a successful round ends within the leader's log |

## Left out

- StateMachineSafety.StateMachineSafe: for runs in which the stale-tail branch is not taken; for the code as written it is false, as StaleTail.SafetyFails shows. That the branch is never taken is enough for safety but not necessary for a given run.
- StateMachineSafety.LogMatching: for the runs in which no stale tail is left, which are just the runs that have the property (MatchingRuns.LogMatchingIff).
- StateMachineSafety.LeaderComplete: for runs in which the stale-tail branch is not taken, which is enough but not necessary; false of the code as written.
- Replicas.SameCommands: for runs in which the stale-tail branch is not taken.
- Replicas.OneSequence: for the same runs.
- Replicas.ServersAgree: for the same runs, and for servers without installed snapshots; with one it is false, as SnapshotRuns.SnapshotsDiffer shows, and KvStore.SnapshotAgreesIff says when a loaded store agrees. The system of nodes and servers has no Get handler; with one the stores can differ too, as ReadRequests.LateReadSplits shows, and ReadRequests.ReadsInvisible gives the condition under which they do not.
- Replicas.ServerWithoutRetries: for servers without installed snapshots, for the same reason.
- RaftNode.AppendSteady: where the code reads out of range (LogReads.AppendInRange) the model returns the rejection that was filled in.
- ExactlyOnce.ExactlyOnceIff: delivered commands only. ReadRequests.ExactlyOnceWithReads adds the Get handler, which can lower a client's last id; snapshots, which omit the table, are not part of these sequences.
- SnapshotCatchUp.CaughtUpBound: for the same pairs as CatchUp.CatchUpBound.
- CatchUp.CatchUpBound: while neither side hears from anyone else, and for a follower that agrees with the leader on what it has committed.
- Linearizability, and the replies of `Get` and `PutAppend` with their timeouts; of `Get` only its effect on the table is modelled.
- What happens behind a push that waits: the calls end there and say so.
- Liveness of the cluster and freedom from deadlock: a commit can stall when the acknowledgement that completes the majority carried no entries, `InstallSnapshot` waits for the channel while it holds the lock, and `try_pop_with_timeout` wakes no writer.
- Restart and recovery, file handling of the persister, and the file that `dump_file` writes.
- Timers, coroutines, thread pools and random timeouts: elections and heartbeats are enabled at any time. `commitWithTimeout` dropping a late task is a lost message.
- gRPC stubs, protobuf and boost serialisation.
- `leaderUpdateCommitIndex` (raft.cc:596-616), which nothing calls.
- The Clerk, `rpcConfig`, the example programs, logging and console output.
- Freeing of nodes, and the skip list's own mutex: the server uses the list only under `m_mtx`.
- Widths of integers.
