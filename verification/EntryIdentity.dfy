/** Entry identity: across all logs and all AppendEntries messages, index and term determine the
    command, although AppendEntries keeps stale tails. And what a successful AppendEntries verifies. */
module EntryIdentity {
  import opened KvTypes
  import opened RaftNode
  import opened Cluster
  import opened ElectionSafety

  function Top(s: Node): int {
    s.snapIndex + |s.logs|
  }

  predicate CreatedGrow(created: map<(int, int), Command>, more: map<(int, int), Command>) {
    forall key :: key in created ==> key in more && more[key] == created[key]
  }

  /** Every entry carries the command Start gave to its term and index. */
  ghost predicate Known(created: map<(int, int), Command>, es: seq<Entry>) {
    forall k :: 0 <= k < |es| ==>
      (es[k].term, es[k].index) in created && created[(es[k].term, es[k].index)] == es[k].command
  }

  ghost predicate CallsKnown(created: map<(int, int), Command>, b: Beat) {
    forall s :: 0 <= s < |b.calls| && HasArgs(b.calls[s]) ==> Known(created, b.calls[s].args.entries)
  }

  /** Term had a leader whose log reaches index. */
  ghost predicate Backed(nodes: seq<Node>, es: seq<Election>, term: int, index: int) {
    exists l: nat :: l < |nodes| && Elected(es, l, term) && index <= Top(nodes[l])
  }

  ghost predicate IdentityInv(c: State) {
    && (forall i {:trigger Known(c.created, c.nodes[i].logs)} :: 0 <= i < |c.nodes| ==>
        Known(c.created, c.nodes[i].logs))
    && (forall b {:trigger CallsKnown(c.created, c.beats[b])} :: 0 <= b < |c.beats| ==>
        CallsKnown(c.created, c.beats[b]))
    && (forall term, index {:trigger Backed(c.nodes, c.elections, term, index)} ::
          (term, index) in c.created ==> Backed(c.nodes, c.elections, term, index))
  }

  ghost predicate SafeSoFar(c: State) {
    Structured(c) && ElectionInv(c.nodes, c.elections) && IdentityInv(c)
  }

  // ------------------------------------------------------------- preservation

  lemma BackedGrows(c: State, d: State, term: int, index: int)
    requires NodesGrow(c.nodes, d.nodes) && Extends(c.elections, d.elections)
    requires Backed(c.nodes, c.elections, term, index)
    ensures Backed(d.nodes, d.elections, term, index)
  {
    var l: nat :| l < |c.nodes| && Elected(c.elections, l, term) && index <= Top(c.nodes[l]);
    ElectedExtends(c.elections, d.elections, l, term);
    assert Grows(c.nodes[l], d.nodes[l]);
  }

  /** The leader of a term is the only one to use it, and its log never gets shorter: Start takes a
      term and index that were never used. */
  lemma StartIsFresh(c: State, i: nat)
    requires SafeSoFar(c) && i < |c.nodes| && c.nodes[i].status == Leader
    ensures (c.nodes[i].term, LastIndex(c.nodes[i]) + 1) !in c.created
  {
    var s := c.nodes[i];
    assert GoodNode(c.nodes, i);
    LastIndexSound(s);
    if (s.term, LastIndex(s) + 1) in c.created {
      assert Backed(c.nodes, c.elections, s.term, LastIndex(s) + 1);
      var l: nat :| l < |c.nodes| && Elected(c.elections, l, s.term) && LastIndex(s) + 1 <= Top(c.nodes[l]);
      OneElected(c, i, l, s.term);
      assert false;
    }
  }

  lemma MergedKnown(created: map<(int, int), Command>, s: Node, a: AppendEntriesArgs)
    requires Sound(s) && Contiguous(a) && Known(created, s.logs) && Known(created, a.entries)
    ensures Known(created, HandleAppend(s, a).node.logs)
  {}

  predicate WritesLog(a: Action) {
    a.AnswerAppend? || a.AnswerSnap? || a.Submit? || a.TakeSnapshot?
  }

  lemma LogUntouched(c: State, a: Action, i: nat)
    requires Structured(c) && Enabled(c, a) && i == Actor(c, a) && !WritesLog(a)
    ensures i < |c.nodes| && Step(c, a).nodes[i].logs == c.nodes[i].logs
    ensures Step(c, a).nodes[i].snapIndex == c.nodes[i].snapIndex && Step(c, a).nodes[i].snapTerm == c.nodes[i].snapTerm
    ensures Step(c, a).created == c.created
  {
    assert a.BuildSnap? ==> GoodSnap(c.nodes, c.snaps[a.k]);
    assert a.HearSnap? ==> GoodSnap(c.nodes, c.snaps[a.k]);
  }

  lemma StartedKnown(c: State, i: nat, command: Command)
    requires SafeSoFar(c) && Enabled(c, Submit(i, command))
    ensures Known(StepSubmit(c, i, command).created, StepSubmit(c, i, command).nodes[i].logs)
  {
    assert Known(c.created, c.nodes[i].logs);
    StartIsFresh(c, i);
  }

  lemma AnsweredKnown(c: State, b: nat, s: nat)
    requires Structured(c) && Enabled(c, AnswerAppend(b, s))
    requires Known(c.created, c.nodes[s].logs) && CallsKnown(c.created, c.beats[b])
    ensures Known(c.created, StepAnswerAppend(c, b, s).nodes[s].logs)
  {
    var beat := c.beats[b];
    assert GoodBeat(c.nodes, beat) && GoodCall(beat, beat.calls[s]) && GoodNode(c.nodes, s);
    MergedKnown(c.created, c.nodes[s], beat.calls[s].args);
  }

  lemma ShorterKnown(created: map<(int, int), Command>, es: seq<Entry>, from: nat)
    requires Known(created, es) && from <= |es|
    ensures Known(created, es[from..])
  {}

  lemma InstalledKnown(created: map<(int, int), Command>, s: Node, a: InstallSnapshotArgs)
    requires Sound(s) && SaneSnapshot(a) && Known(created, s.logs)
    ensures Known(created, HandleInstall(s, a).node.logs)
  {
    if s.snapIndex < a.lastIndex <= Top(s) { ShorterKnown(created, s.logs, a.lastIndex - s.snapIndex); }
  }

  lemma CompactKnown(created: map<(int, int), Command>, s: Node, index: int, data: Image)
    requires Sound(s) && Known(created, s.logs)
    ensures Known(created, Compact(s, index, data).logs)
  {
    if s.snapIndex < index <= Top(s) { ShorterKnown(created, s.logs, index - s.snapIndex); }
  }

  lemma LogKnown(c: State, a: Action, i: nat)
    requires SafeSoFar(c) && Enabled(c, a) && i == Actor(c, a) && i < |c.nodes|
    ensures Known(Step(c, a).created, Step(c, a).nodes[i].logs)
  {
    assert Known(c.created, c.nodes[i].logs);
    if !WritesLog(a) {
      LogUntouched(c, a, i);
    } else if a.AnswerAppend? {
      assert CallsKnown(c.created, c.beats[a.b]);
      AnsweredKnown(c, a.b, a.s);
    } else if a.AnswerSnap? {
      assert GoodSnap(c.nodes, c.snaps[a.k]) && GoodNode(c.nodes, i);
      InstalledKnown(c.created, c.nodes[i], c.snaps[a.k].args);
    } else if a.Submit? {
      StartedKnown(c, i, a.command);
    } else {
      assert GoodNode(c.nodes, i);
      CompactKnown(c.created, c.nodes[i], a.index, a.data);
    }
  }

  lemma CallsKept(c: State, a: Action, b: nat)
    requires SafeSoFar(c) && Enabled(c, a) && b < |Step(c, a).beats|
    ensures CallsKnown(c.created, Step(c, a).beats[b])
  {
    if b < |c.beats| {
      assert CallsKnown(c.created, c.beats[b]);
    } else {
      NewCallsKnown(c, a.i);
    }
  }

  lemma NewCallsKnown(c: State, i: nat)
    requires SafeSoFar(c) && Enabled(c, DoHeartBeat(i)) && GoodNode(c.nodes, i)
    ensures CallsKnown(c.created, NewBeat(c.nodes[i]))
  {
    var s := c.nodes[i];
    assert Known(c.created, s.logs);
    forall k | 0 <= k < s.peers && HasArgs(NewBeat(s).calls[k])
        ensures Known(c.created, NewBeat(s).calls[k].args.entries) {
      assert NewBeat(s).calls[k] == CallFor(DispatchTo(s, k));
    }
  }

  lemma CreatedGrows(c: State, a: Action)
    requires SafeSoFar(c) && Enabled(c, a)
    ensures CreatedGrow(c.created, Step(c, a).created)
  {
    if a.Submit? { StartIsFresh(c, a.i); }
  }

  lemma NewKeyBacked(c: State, a: Action, term: int, index: int)
    requires SafeSoFar(c) && Enabled(c, a) && (term, index) in Step(c, a).created
    ensures Backed(Step(c, a).nodes, Step(c, a).elections, term, index)
  {
    var d := Step(c, a);
    StepGrows(c, a);
    StepExtends(c, a);
    if (term, index) in c.created {
      BackedGrows(c, d, term, index);
    } else {
      assert GoodNode(c.nodes, a.i);
      LastIndexSound(c.nodes[a.i]);
      assert Elected(d.elections, a.i, term) && index <= Top(d.nodes[a.i]);
    }
  }

  lemma OtherKnown(c: State, more: map<(int, int), Command>, i: nat)
    requires IdentityInv(c) && i < |c.nodes| && CreatedGrow(c.created, more)
    ensures Known(more, c.nodes[i].logs)
  {
    assert Known(c.created, c.nodes[i].logs);
  }

  lemma MoreCalls(created: map<(int, int), Command>, more: map<(int, int), Command>, b: Beat)
    requires CallsKnown(created, b) && CreatedGrow(created, more)
    ensures CallsKnown(more, b)
  {}

  lemma IdentityKept(c: State, a: Action)
    requires SafeSoFar(c) && Enabled(c, a)
    ensures IdentityInv(Step(c, a))
  {
    var d := Step(c, a);
    ActorOnly(c, a);
    CreatedGrows(c, a);
    forall i | 0 <= i < |d.nodes| ensures Known(d.created, d.nodes[i].logs) {
      if i == Actor(c, a) { LogKnown(c, a, i); } else { OtherKnown(c, d.created, i); }
    }
    forall b | 0 <= b < |d.beats| ensures CallsKnown(d.created, d.beats[b]) {
      CallsKept(c, a, b);
      MoreCalls(c.created, d.created, d.beats[b]);
    }
    forall term, index | (term, index) in d.created ensures Backed(d.nodes, d.elections, term, index) {
      NewKeyBacked(c, a, term, index);
    }
  }

  lemma {:induction false} RunSafe(n: nat, run: seq<State>, t: nat)
    requires IsRun(n, run) && t < |run|
    ensures SafeSoFar(run[t]) && |run[t].nodes| == n
  {
    if t == 0 {
      InitStructured(n);
    } else {
      RunSafe(n, run, t - 1);
      var a := LastAction(n, run, t);
      ElectionsStep(run[t - 1], a);
      IdentityKept(run[t - 1], a);
    }
  }

  // ----------------------------------------------------------------- theorems

  /** An entry that is in a log, or in a message ever sent. */
  ghost predicate Present(c: State, e: Entry) {
    || (exists i :: 0 <= i < |c.nodes| && e in c.nodes[i].logs)
    || (exists b, s :: 0 <= b < |c.beats| && 0 <= s < |c.beats[b].calls| && HasArgs(c.beats[b].calls[s])
                       && e in c.beats[b].calls[s].args.entries)
  }

  lemma PresentKnown(c: State, e: Entry)
    requires IdentityInv(c) && Present(c, e)
    ensures (e.term, e.index) in c.created && c.created[(e.term, e.index)] == e.command
  {
    if i :| 0 <= i < |c.nodes| && e in c.nodes[i].logs {
      assert Known(c.created, c.nodes[i].logs);
    } else {
      var b, s :| 0 <= b < |c.beats| && 0 <= s < |c.beats[b].calls| && HasArgs(c.beats[b].calls[s])
                  && e in c.beats[b].calls[s].args.entries;
      assert CallsKnown(c.created, c.beats[b]);
    }
  }

  ghost predicate CreatedRises(run: seq<State>) {
    forall t {:trigger run[t].created} :: 0 < t < |run| ==> CreatedGrow(run[t - 1].created, run[t].created)
  }

  lemma CreatedNext(n: nat, run: seq<State>, t: nat)
    requires IsRun(n, run) && 0 < t < |run|
    ensures CreatedGrow(run[t - 1].created, run[t].created)
  {
    RunSafe(n, run, t - 1);
    assert IsStep(run[t - 1], run[t - 1 + 1]);
    SafeNext(run[t - 1], run[t]);
  }

  lemma SafeNext(c: State, d: State)
    requires SafeSoFar(c) && IsStep(c, d)
    ensures CreatedGrow(c.created, d.created)
  {
    var a :| Enabled(c, a) && d == Step(c, a);
    CreatedGrows(c, a);
  }

  /** What Start made stays as it was made. */
  lemma {:induction false} CreatedStays(run: seq<State>, t: nat, u: nat)
    requires CreatedRises(run) && t <= u < |run|
    ensures CreatedGrow(run[t].created, run[u].created)
    decreases u
  {
    if t < u {
      CreatedStays(run, t, u - 1);
      assert CreatedGrow(run[u - 1].created, run[u].created);
    }
  }

  /** Entry identity: at any two times of a run, two entries of one index and term are one entry. */
  lemma EntriesAgree(n: nat, run: seq<State>, t: nat, u: nat, e: Entry, f: Entry)
    requires IsRun(n, run) && t < |run| && u < |run|
    requires Present(run[t], e) && Present(run[u], f)
    requires e.index == f.index && e.term == f.term
    ensures e == f
  {
    RunSafe(n, run, t);
    RunSafe(n, run, u);
    PresentKnown(run[t], e);
    PresentKnown(run[u], f);
    forall v | 0 < v < |run| ensures CreatedGrow(run[v - 1].created, run[v].created) {
      CreatedNext(n, run, v);
    }
    CreatedStays(run, Min(t, u), Max(t, u));
  }

  lemma AcceptedSlot(created: map<(int, int), Command>, s: Node, a: AppendEntriesArgs, k: nat)
    requires Sound(s) && Contiguous(a) && s.snapIndex <= a.prevLogIndex <= Top(s)
    requires Known(created, s.logs) && Known(created, a.entries) && k < |a.entries|
    ensures a.prevLogIndex - s.snapIndex + k < |Accepted(s, a).logs|
    ensures Accepted(s, a).logs[a.prevLogIndex - s.snapIndex + k] == a.entries[k]
  {
    var slot := a.prevLogIndex - s.snapIndex + k;
    assert slot < |s.logs| ==> s.logs[slot].index == a.entries[k].index;
  }

  /** What an accepted message leaves in the follower's log. */
  lemma AcceptedRegion(created: map<(int, int), Command>, s: Node, a: AppendEntriesArgs)
    requires Sound(s) && Contiguous(a) && s.snapIndex <= a.prevLogIndex <= Top(s)
    requires Known(created, s.logs) && Known(created, a.entries)
    ensures var t := Accepted(s, a);
            && t.snapIndex == s.snapIndex && EndIndex(a) <= Top(t)
            && (forall k :: 0 <= k < |a.entries| ==> t.logs[a.prevLogIndex - t.snapIndex + k] == a.entries[k])
            && (t.commitIndex == s.commitIndex || t.commitIndex <= a.leaderCommit)
  {
    forall k: nat | k < |a.entries|
      ensures a.prevLogIndex - s.snapIndex + k < |Accepted(s, a).logs|
      ensures Accepted(s, a).logs[a.prevLogIndex - s.snapIndex + k] == a.entries[k]
    {
      AcceptedSlot(created, s, a, k);
    }
  }

  /** The follower has the sent entries in place, and its commit index stays or is within them. */
  predicate Verified(before: Node, after: Node, a: AppendEntriesArgs) {
    && after.snapIndex <= a.prevLogIndex && EndIndex(a) <= Top(after)
    && (forall k :: 0 <= k < |a.entries| ==> after.logs[a.prevLogIndex - after.snapIndex + k] == a.entries[k])
    && (after.commitIndex == before.commitIndex || after.commitIndex <= EndIndex(a))
  }

  lemma SuccessVerified(created: map<(int, int), Command>, s: Node, a: AppendEntriesArgs)
    requires Sound(s) && Contiguous(a) && HandleAppend(s, a).reply.success && a.leaderCommit <= EndIndex(a)
    requires Known(created, s.logs) && Known(created, a.entries)
    ensures Verified(s, HandleAppend(s, a).node, a)
  {
    var f := Follow(s, a.term);
    assert Sound(f) && Known(created, f.logs);
    AcceptedRegion(created, f, a);
  }

  lemma AnsweredVerified(c: State, b: nat, s: nat)
    requires SafeSoFar(c) && Enabled(c, AnswerAppend(b, s))
    requires StepAnswerAppend(c, b, s).beats[b].calls[s].reply.success
    ensures Verified(c.nodes[s], StepAnswerAppend(c, b, s).nodes[s], c.beats[b].calls[s].args)
  {
    assert GoodBeat(c.nodes, c.beats[b]) && GoodCall(c.beats[b], c.beats[b].calls[s]) && GoodNode(c.nodes, s);
    assert CallsKnown(c.created, c.beats[b]) && Known(c.created, c.nodes[s].logs);
    SuccessVerified(c.created, c.nodes[s], c.beats[b].calls[s].args);
  }

  /** Verified commit region: a node that accepts a message then holds the leader's entries, command
      for command, right after the previous index, and commits nothing past the end of the message:
      the stale tail is never committed by it. */
  lemma CommitRegion(n: nat, run: seq<State>, t: nat, b: nat, s: nat)
    requires IsRun(n, run) && t < |run| && Structured(run[t]) && Enabled(run[t], AnswerAppend(b, s))
    requires StepAnswerAppend(run[t], b, s).beats[b].calls[s].reply.success
    ensures Verified(run[t].nodes[s], StepAnswerAppend(run[t], b, s).nodes[s], run[t].beats[b].calls[s].args)
  {
    RunSafe(n, run, t);
    AnsweredVerified(run[t], b, s);
  }
}
