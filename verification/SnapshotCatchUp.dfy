/** Catching up with the snapshot in between: what a leader and a follower do when the leader has no entries for
    the follower any more, and how many exchanges it takes in all until a message is accepted. */
module SnapshotCatchUp {
  import opened RaftNode
  import opened LogReads
  import opened AppendHandlers
  import opened SnapshotHandlers
  import opened CatchUp

  /** The follower after it was sent the leader's snapshot, and the leader after it heard the reply. */
  function FollowerWithSnapshot(l: Node, f: Node): Node
    requires Sound(l) && Sound(f)
  {
    HandleInstall(f, BuildSnapshot(l)).node
  }

  function LeaderPastSnapshot(l: Node, f: Node, server: nat): Node
    requires Sound(l) && Sound(f) && server < l.peers
  {
    HandleInstallReply(l, server, BuildSnapshot(l), HandleInstall(f, BuildSnapshot(l)).reply)
  }

  /** After a snapshot, new to the follower or not, the leader goes on right behind it. */
  lemma LeaderGoesOn(l: Node, f: Node, server: nat)
    requires Paired(l, f, server)
    ensures var l' := LeaderPastSnapshot(l, f, server);
            && Sound(l') && SameButPeer(l, l', server)
            && l' == l.(nextIndex := l'.nextIndex, matchIndex := l'.matchIndex)
            && l'.nextIndex[server] == l.snapIndex + 1 && l'.matchIndex[server] == l.snapIndex
            && CanBeatTo(l', server)
  {
    InstallAnswered(f, BuildSnapshot(l));
    InstallHeard(l, server, BuildSnapshot(l), HandleInstall(f, BuildSnapshot(l)).reply);
  }

  /** An outdated snapshot leaves the follower's log alone. */
  lemma OldSnapshot(l: Node, f: Node, server: nat)
    requires Paired(l, f, server) && l.snapIndex <= f.snapIndex
    ensures var f' := FollowerWithSnapshot(l, f);
            && Sound(f') && SameFollower(f, f') && f'.term == f.term
            && Paired(LeaderPastSnapshot(l, f, server), f', server)
  {
    var l', f' := LeaderPastSnapshot(l, f, server), FollowerWithSnapshot(l, f);
    InstallAnswered(f, BuildSnapshot(l));
    InstallSteady(f, BuildSnapshot(l));
    LeaderGoesOn(l, f, server);
    forall i | l.snapIndex <= i <= l.snapIndex + |l.logs| && f.snapIndex <= i <= f.commitIndex
      ensures TermAt(l', i) == TermAt(f', i)
    {
      assert TermAt(l, i) == TermAt(f, i);
    }
  }

  /** A newer one makes it stand at the leader's snapshot, and keeps what it has behind it. */
  lemma TakesSnapshot(l: Node, f: Node)
    requires Sound(l) && Sound(f) && l.term == f.term && f.snapIndex < l.snapIndex
    ensures var f' := FollowerWithSnapshot(l, f);
            && Sound(f') && f'.term == l.term && f'.commitIndex == Max(f.commitIndex, l.snapIndex)
            && f'.snapIndex == l.snapIndex && f'.snapTerm == l.snapTerm && f'.snapshot == l.snapshot
            && KeepsBehind(f, f', l.snapIndex)
  {
    InstallAnswered(f, BuildSnapshot(l));
    InstallSteady(f, BuildSnapshot(l));
  }

  lemma KeptTerm(s: Node, t: Node, i: int)
    requires s.snapIndex <= t.snapIndex < i <= t.snapIndex + |t.logs| && KeepsBehind(s, t, t.snapIndex)
    ensures i <= s.snapIndex + |s.logs| && TermAt(t, i) == TermAt(s, i)
  {
    assert t.logs[i - t.snapIndex - 1] == s.logs[t.snapIndex - s.snapIndex + (i - t.snapIndex - 1)];
  }

  lemma NewSnapshot(l: Node, f: Node, server: nat)
    requires Paired(l, f, server) && f.snapIndex < l.snapIndex
    ensures var f' := FollowerWithSnapshot(l, f);
            && f'.snapIndex == l.snapIndex && f'.snapTerm == l.snapTerm && f'.snapshot == l.snapshot
            && f'.term == l.term && f'.commitIndex >= f.commitIndex
            && Paired(LeaderPastSnapshot(l, f, server), f', server)
  {
    var l', f' := LeaderPastSnapshot(l, f, server), FollowerWithSnapshot(l, f);
    TakesSnapshot(l, f);
    LeaderGoesOn(l, f, server);
    forall i | l.snapIndex <= i <= l.snapIndex + |l.logs| && f'.snapIndex <= i <= f'.commitIndex
      ensures TermAt(l', i) == TermAt(f', i)
    {
      if i > l.snapIndex {
        assert TermAt(l, i) == TermAt(f, i);
        KeptTerm(f, f', i);
      }
    }
  }

  /** The snapshot stage: where the leader has to send its snapshot, and it is new to the follower, the next
      heartbeat sends the entries behind it, and the follower accepts them. */
  lemma SnapshotStage(l: Node, f: Node, server: nat)
    requires Paired(l, f, server) && server != l.me
    requires l.nextIndex[server] <= l.snapIndex && f.snapIndex < l.snapIndex
    ensures DispatchAsWritten(l, server) == InRange(SnapshotTask)
    ensures HandleInstall(f, BuildSnapshot(l)).pushed == [SnapshotMsg(l.snapshot, l.snapTerm, l.snapIndex)]
    ensures var l', f' := LeaderPastSnapshot(l, f, server), FollowerWithSnapshot(l, f);
            && Paired(l', f', server) && SameButPeer(l, l', server) && l'.matchIndex[server] == l.snapIndex
            && CanBeatTo(l', server)
            && l'.snapIndex < l'.nextIndex[server]
            && DispatchAsWritten(l', server) == InRange(AppendTask(BuildAppend(l', server)))
            && BuildAppend(l', server).prevLogIndex == l.snapIndex && BuildAppend(l', server).entries == l.logs
            && Reply(l', f', server).success
  {
    var l', f' := LeaderPastSnapshot(l, f, server), FollowerWithSnapshot(l, f);
    InstallAnswered(f, BuildSnapshot(l));
    LeaderGoesOn(l, f, server);
    NewSnapshot(l, f, server);
    Dispatched(l', server);
    DispatchInRange(l', server);
    BuiltFor(l', f', server);
    AppendAnswered(f', BuildAppend(l', server));
  }

  // ------------------------------------------------------- the whole catching up

  /** The follower accepts the next message. */
  predicate InTouch(l: Node, f: Node, server: nat)
    requires Paired(l, f, server)
  {
    l.nextIndex[server] > l.snapIndex && Reply(l, f, server).success
  }

  /** One exchange, with a message or with the snapshot. */
  function FollowerNext(l: Node, f: Node, server: nat): Node
    requires Paired(l, f, server)
  {
    if l.nextIndex[server] <= l.snapIndex then FollowerWithSnapshot(l, f) else FollowerAfter(l, f, server)
  }

  function LeaderNext(l: Node, f: Node, server: nat): Node
    requires Paired(l, f, server)
  {
    if l.nextIndex[server] <= l.snapIndex then LeaderPastSnapshot(l, f, server) else LeaderAfter(l, f, server)
  }

  /** The snapshot is behind both: the next message starts right behind the follower's snapshot or below it. */
  predicate Beyond(l: Node, f: Node, server: nat)
    requires server < |l.nextIndex|
  {
    l.snapIndex <= f.snapIndex && l.snapIndex < l.nextIndex[server] <= f.snapIndex + 1
  }

  function ToGo(l: Node, f: Node, server: nat): int
    requires server < |l.nextIndex|
  {
    if Beyond(l, f, server) then Steps(l, f, server)
    else if l.nextIndex[server] <= l.snapIndex then 2
    else 2 + Steps(l, f, server)
  }

  lemma SnapshotProgress(l: Node, f: Node, server: nat)
    requires Paired(l, f, server) && l.nextIndex[server] <= l.snapIndex
    ensures Paired(LeaderPastSnapshot(l, f, server), FollowerWithSnapshot(l, f), server)
    ensures Beyond(LeaderPastSnapshot(l, f, server), FollowerWithSnapshot(l, f), server)
    ensures f.snapIndex <= l.snapIndex ==> FollowerWithSnapshot(l, f).snapIndex == l.snapIndex
  {
    LeaderGoesOn(l, f, server);
    if f.snapIndex < l.snapIndex { NewSnapshot(l, f, server); } else { OldSnapshot(l, f, server); }
  }

  lemma ExchangeProgress(l: Node, f: Node, server: nat)
    requires Paired(l, f, server) && !InTouch(l, f, server)
    ensures Paired(LeaderNext(l, f, server), FollowerNext(l, f, server), server)
    ensures 0 <= ToGo(LeaderNext(l, f, server), FollowerNext(l, f, server), server) < ToGo(l, f, server)
  {
    if l.nextIndex[server] <= l.snapIndex {
      SnapshotProgress(l, f, server);
    } else {
      RejectionProgress(l, f, server);
    }
  }

  /** Exchanges until the follower accepts a message, the snapshot included. */
  function Exchanges(l: Node, f: Node, server: nat): nat
    requires Paired(l, f, server)
    decreases ToGo(l, f, server)
  {
    if InTouch(l, f, server) then 0
    else
      ExchangeProgress(l, f, server);
      1 + Exchanges(LeaderNext(l, f, server), FollowerNext(l, f, server), server)
  }

  /** One for the snapshot, and one more if the follower's own snapshot is the newer one. */
  function ForSnapshot(l: Node, f: Node, server: nat): nat
    requires server < |l.nextIndex|
  {
    if Beyond(l, f, server) then 0 else if f.snapIndex <= l.snapIndex then 1 else 2
  }

  lemma {:induction false} ExchangesBound(l: Node, f: Node, server: nat)
    requires Paired(l, f, server)
    ensures Exchanges(l, f, server) <= Rejections(l, f, server) + ForSnapshot(l, f, server)
    decreases ToGo(l, f, server)
  {
    if !InTouch(l, f, server) {
      var l', f' := LeaderNext(l, f, server), FollowerNext(l, f, server);
      ExchangeProgress(l, f, server);
      ExchangesBound(l', f', server);
      if l.nextIndex[server] <= l.snapIndex {
        SnapshotProgress(l, f, server);
        AfterSnapshot(l', f', server);
      } else {
        RejectionProgress(l, f, server);
      }
    }
  }

  /** Behind the snapshot there is at most one rejection, and none if both have the same one. */
  lemma AfterSnapshot(l: Node, f: Node, server: nat)
    requires Paired(l, f, server) && Beyond(l, f, server)
    ensures Rejections(l, f, server) <= if l.nextIndex[server] == f.snapIndex + 1 then 0 else 1
  {
    if StartsBelow(l, f, server) { BelowOnce(l, f, server); } else { CommittedAccepted(l, f, server); }
  }

  /** Catching up is bounded, through a snapshot or not: one exchange for a log that is too short, one for each
      run of equal terms in the follower's log, one if the hints can run into the follower's snapshot, one
      for the leader's snapshot, and one more if the follower's is newer than that. */
  lemma CaughtUpBound(l: Node, f: Node, server: nat)
    requires Paired(l, f, server)
    ensures Exchanges(l, f, server)
            <= 1 + TermRuns(f.logs) + Extra(f) + (if f.snapIndex <= l.snapIndex then 1 else 2)
  {
    CatchUpBound(l, f, server);
    ExchangesBound(l, f, server);
  }
}
