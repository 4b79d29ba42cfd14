/**
 * A snapshot that arrives late (src/raft/raft_snapshot.go:81-130, src/kvraft/server.go:214-219). InstallSnapshot
 * compares its index with Base only, and the service takes over whatever it is sent, so a snapshot older than
 * what was applied takes entries back that are never delivered again. Exactly when it does no harm is stated here.
 */
module LateSnapshot {
  import opened KvTypes
  import opened RaftLog
  import opened RaftServer
  import opened KvServer
  import opened Recovery

  /** Raft installs the snapshot and the service restores it. */
  function Receive(n: Node, args: SnapshotArgs): Node {
    var sent := args.term >= n.s.currentTerm && args.lastIncludedIndex > n.s.log.base;
    Node(InstallSnapshot(n.s, args),
         if !sent then n.kv
         else Service(args.lastIncludedIndex, if args.data.Some? then args.data.value else n.kv.state))
  }

  /** The snapshot of a server that is itself in sync. */
  ghost predicate IsOfAgreed(agreed: seq<LogRecord>, args: SnapshotArgs) {
    && 0 < args.lastIncludedIndex < |agreed|
    && args.lastIncludedTerm == agreed[args.lastIncludedIndex].term
    && args.data == Some(After(agreed, args.lastIncludedIndex))
  }

  /** Nothing is in delivery, and the snapshot is not behind what was applied. */
  predicate InTime(s: Server, args: SnapshotArgs) {
    || args.term < s.currentTerm
    || args.lastIncludedIndex <= s.log.base
    || (s.delivered == 0 && args.lastIncludedIndex == s.lastApplied)
    || (s.delivered == 0 && args.lastIncludedIndex > s.lastApplied && (s.batch.None? || s.batch.value == []))
  }

  // ---------- in time ----------

  lemma InstallAgrees(agreed: seq<LogRecord>, s: Server, args: SnapshotArgs)
    requires Agrees(agreed, s) && OnDisk(s) && IsOfAgreed(agreed, args)
    requires args.term >= s.currentTerm && args.lastIncludedIndex > s.log.base
    ensures var s' := InstallSnapshot(s, args);
            && Agrees(agreed, s') && OnDisk(s') && SnapshotOk(agreed, s') && s'.log.base == args.lastIncludedIndex
            && s'.batch == s.batch && s'.delivered == s.delivered
            && s'.commitIndex == (if args.lastIncludedIndex > s.commitIndex then args.lastIncludedIndex else s.commitIndex)
            && s'.lastApplied == (if args.lastIncludedIndex > s.lastApplied then args.lastIncludedIndex else s.lastApplied)
  {
    hide After;
    var s' := InstallSnapshot(s, args);
    forall i | s'.log.base < i <= s'.commitIndex ensures s'.log.Get(i) == agreed[i] {
      assert s'.log.Get(i) == s.log.Get(i);
    }
  }

  lemma StaleInstall(agreed: seq<LogRecord>, n: Node, args: SnapshotArgs)
    requires InSync(agreed, n) && (args.term < n.s.currentTerm || args.lastIncludedIndex <= n.s.log.base)
    ensures InSync(agreed, Receive(n, args))
  {
    hide After;
  }

  /** A snapshot in time keeps the server in sync, whatever the log. */
  lemma InstallInTime(agreed: seq<LogRecord>, n: Node, args: SnapshotArgs)
    requires InSync(agreed, n) && IsOfAgreed(agreed, args) && InTime(n.s, args)
    ensures InSync(agreed, Receive(n, args))
  {
    if args.term < n.s.currentTerm || args.lastIncludedIndex <= n.s.log.base {
      StaleInstall(agreed, n, args);
    } else {
      hide After, InstallSnapshot, Agrees, OnDisk, SnapshotOk;
      InstallAgrees(agreed, n.s, args);
    }
  }

  // ---------- late ----------

  /** Every entry changes the state to one that was not there before: positions can be told by the state. */
  ghost predicate StatesDiffer(agreed: seq<LogRecord>) {
    agreed != [] && forall i: nat, j: nat :: i < j < |agreed| ==> After(agreed, i) != After(agreed, j)
  }

  /** A write stays a duplicate from its own entry on. */
  lemma {:induction false} StaysSpent(agreed: seq<LogRecord>, i: nat, m: nat)
    requires 0 < i <= m < |agreed| && IsCommand(agreed[i]) && IsWrite(agreed[i].command.value)
    ensures Duplicated(After(agreed, m).table, agreed[i].command.value.clientId, agreed[i].command.value.seqId)
  {
    if m > i {
      StaysSpent(agreed, i, m - 1);
    }
  }

  /** An entry that comes a second time changes nothing, so no two entries are the same. */
  lemma RecordsDiffer(agreed: seq<LogRecord>, i: nat, j: nat)
    requires StatesDiffer(agreed) && 0 < i < j < |agreed|
    ensures agreed[i] != agreed[j]
  {
    if agreed[i] == agreed[j] {
      if IsCommand(agreed[i]) && IsWrite(agreed[i].command.value) {
        StaysSpent(agreed, i, j - 1);
      }
      assert After(agreed, j) == After(agreed, j - 1);
      assert false;
    }
  }

  lemma Misplaced(agreed: seq<LogRecord>, batch: seq<LogRecord>, applied: nat, k: nat)
    requires StatesDiffer(agreed) && applied < k && batch != [] && applied + |batch| < |agreed| && k + |batch| < |agreed|
    requires batch == agreed[applied + 1..applied + 1 + |batch|]
    ensures batch != agreed[k + 1..k + 1 + |batch|]
  {
    hide StatesDiffer;
    RecordsDiffer(agreed, applied + 1, k + 1);
    assert batch[0] == agreed[applied + 1];
    assert agreed[k + 1..k + 1 + |batch|][0] == agreed[k + 1];
  }

  /** On such a log a late snapshot always breaks the server. */
  lemma LateInstall(agreed: seq<LogRecord>, n: Node, args: SnapshotArgs)
    requires StatesDiffer(agreed) && InSync(agreed, n) && IsOfAgreed(agreed, args) && !InTime(n.s, args)
    ensures !InSync(agreed, Receive(n, args))
  {
    var k, c := args.lastIncludedIndex, Cursor(Receive(n, args).s);
    hide After, InstallSnapshot, Agrees, OnDisk, SnapshotOk, StatesDiffer;
    InstallAgrees(agreed, n.s, args);
    if c == k {
      if k + |n.s.batch.value| < |agreed| {
        Misplaced(agreed, n.s.batch.value, n.s.lastApplied, k);
      }
    } else if c < |agreed| {
      TwoStates(agreed, k, c);
    }
  }

  lemma TwoStates(agreed: seq<LogRecord>, i: nat, j: nat)
    requires StatesDiffer(agreed) && i < |agreed| && j < |agreed| && i != j
    ensures After(agreed, i) != After(agreed, j)
  {
    hide After;
  }

  /** Exactly when, on every log in which the state tells the position: no weaker test on positions would do. */
  lemma InstallExact(agreed: seq<LogRecord>, n: Node, args: SnapshotArgs)
    requires StatesDiffer(agreed) && InSync(agreed, n) && IsOfAgreed(agreed, args)
    ensures InSync(agreed, Receive(n, args)) <==> InTime(n.s, args)
  {
    hide StatesDiffer, InSync, IsOfAgreed, InTime;
    if InTime(n.s, args) {
      InstallInTime(agreed, n, args);
    } else {
      LateInstall(agreed, n, args);
    }
  }

  // ---------- a run ----------

  /** A log whose entry i appends one letter with number i. */
  function Tally(i: nat): LogRecord {
    LogRecord(2, true, Some(Op("k", "x", OpAppend, 0, i)))
  }

  ghost predicate IsTally(agreed: seq<LogRecord>) {
    agreed != [] && forall i :: 0 < i < |agreed| ==> agreed[i] == Tally(i)
  }

  lemma {:induction false} TallyStates(agreed: seq<LogRecord>, n: nat)
    requires IsTally(agreed) && n < |agreed|
    ensures |Lookup(After(agreed, n).store, "k")| == n
    ensures 0 in After(agreed, n).table ==> After(agreed, n).table[0].seqId <= n
  {
    if n > 0 {
      TallyStates(agreed, n - 1);
      assert agreed[n] == Tally(n);
    }
  }

  /** Such logs of any length are among those of `InstallExact`. */
  lemma TallyDiffers(agreed: seq<LogRecord>)
    requires IsTally(agreed)
    ensures StatesDiffer(agreed)
  {
    forall i: nat, j: nat | i < j < |agreed| ensures After(agreed, i) != After(agreed, j) {
      TallyStates(agreed, i);
      TallyStates(agreed, j);
    }
  }

  /** Two entries replicated to a new server of three and committed, by the leader of term 2. */
  function Replicated(): Server {
    HandleAppend(Boot(0, 3, Persister(None, None)), AppendArgs(2, 1, 0, 0, [Tally(1), Tally(2)], 2)).0
  }

  /** What the rest of the run depends on. */
  ghost predicate Ready(s: Server) {
    && LeavesApplying(Boot(0, 3, Persister(None, None)), s)
    && s.log.base == 0 && |s.log.records| == 3 && s.commitIndex == 2 && s.currentTerm == 2
    && s.lastApplied == 0 && s.batch == None && s.delivered == 0
  }

  lemma ReplicatedIsReady()
    ensures Ready(Replicated()) && Replicated().log.records == [DUMMY] + [Tally(1), Tally(2)]
  {
    hide Tally;
    FirstAccepted([Tally(1), Tally(2)]);
    hide HandleAppend, Boot, LeavesApplying;
  }

  /** A new server accepts what starts behind the dummy entry. */
  lemma FirstAccepted(entries: seq<LogRecord>)
    ensures var s := Boot(0, 3, Persister(None, None));
            var s' := HandleAppend(s, AppendArgs(2, 1, 0, 0, entries, 2)).0;
            && LeavesApplying(s, s') && s'.log.base == 0 && s'.log.records == [DUMMY] + entries
            && s'.commitIndex == 2 && s'.currentTerm == 2 && s'.lastApplied == 0 && s'.batch == None && s'.delivered == 0
  {
    assert [DUMMY][..1] == [DUMMY];
    hide ScanFor;
  }

  /** The states of the run: delivered one by one, then the batch is done. */
  function Example(s: Server): seq<Node>
    requires |s.log.records| == 3
  {
    var batch := s.log.records[1..];
    var kv0 := Service(0, EMPTY);
    var kv1 := HandleRecord(kv0, 1, batch[0]);
    var kv2 := HandleRecord(kv1, 2, batch[1]);
    [ Node(Boot(0, 3, Persister(None, None)), kv0),
      Node(s, kv0),
      Node(s.(batch := Some(batch)), kv0),
      Node(s.(batch := Some(batch), delivered := 1), kv1),
      Node(s.(batch := Some(batch), delivered := 2), kv2),
      Node(s.(lastApplied := 2), kv2) ]
  }

  function Steps(s: Server): seq<Step> {
    [Raft(s), Collect, Deliver(false), Deliver(false), Finish]
  }

  lemma PlainCollect(agreed: seq<LogRecord>, s: Server, kv: Service)
    requires Ready(s)
    ensures Possible(agreed, Node(s, kv), Collect)
    ensures Take(agreed, Node(s, kv), Collect) == Node(s.(batch := Some(s.log.records[1..])), kv)
  {
    assert s.log.records[1..3] == s.log.records[1..];
    hide LeavesApplying;
  }

  lemma PlainDelivery(agreed: seq<LogRecord>, s: Server, kv: Service)
    requires s.batch.Some? && s.delivered < |s.batch.value| && DeliverIndex(s) < s.log.Size()
    ensures Possible(agreed, Node(s, kv), Deliver(false))
    ensures Take(agreed, Node(s, kv), Deliver(false)) ==
            Node(s.(delivered := s.delivered + 1), HandleRecord(kv, DeliverIndex(s), s.batch.value[s.delivered]))
  {
    hide HandleRecord;
  }

  lemma PlainFinish(agreed: seq<LogRecord>, s: Server, kv: Service)
    requires s.batch.Some? && s.delivered == |s.batch.value|
    ensures Possible(agreed, Node(s, kv), Finish)
    ensures Take(agreed, Node(s, kv), Finish) == Node(s.(lastApplied := s.lastApplied + s.delivered, batch := None, delivered := 0), kv)
  {
  }

  lemma PlainRaft(agreed: seq<LogRecord>, s: Server, kv: Service)
    requires Ready(s) && Agrees(agreed, s)
    ensures var n := Node(Boot(0, 3, Persister(None, None)), kv); Possible(agreed, n, Raft(s)) && Take(agreed, n, Raft(s)) == Node(s, kv)
  {
    hide LeavesApplying, Agrees;
  }

  lemma ExampleRuns(agreed: seq<LogRecord>, s: Server)
    requires Ready(s) && Agrees(agreed, s) && agreed != [] && agreed[0].term == INVALID_TERM
    ensures Run(agreed, Example(s), Steps(s))
  {
    hide LeavesApplying, Agrees, HandleRecord, Take, Possible;
    var nodes := Example(s);
    PlainRaft(agreed, s, nodes[0].kv);
    PlainCollect(agreed, s, nodes[1].kv);
    PlainDelivery(agreed, nodes[2].s, nodes[2].kv);
    PlainDelivery(agreed, nodes[3].s, nodes[3].kv);
    PlainFinish(agreed, nodes[4].s, nodes[4].kv);
    assert StartService(None) == nodes[0].kv;
    hide Boot;
  }

  lemma ReplicatedAgrees(agreed: seq<LogRecord>)
    requires |agreed| == 4 && agreed[0] == DUMMY && forall i :: 0 < i < 4 ==> agreed[i] == Tally(i)
    ensures Agrees(agreed, Replicated())
  {
    ReplicatedIsReady();
    hide Replicated, Tally, LeavesApplying;
  }

  /** A snapshot of one entry, from a leader of the same term, for a server that has applied two. */
  lemma TakenBack(agreed: seq<LogRecord>, n: Node, args: SnapshotArgs)
    requires InSync(agreed, n) && IsOfAgreed(agreed, args) && args.lastIncludedIndex == 1 && args.term == n.s.currentTerm
    requires n.s.log.base == 0 && n.s.lastApplied == 2 && n.s.delivered == 0
    ensures Receive(n, args).kv.state == After(agreed, 1) && DeliverIndex(Receive(n, args).s) == 3
    ensures n.kv.state == After(agreed, 2)
  {
    hide After, InstallSnapshot, Agrees, OnDisk, SnapshotOk, BatchOk;
    InstallAgrees(agreed, n.s, args);
  }

  /**
   * A run that ends with two entries applied; then a snapshot of one entry arrives from a leader of the same
   * term. The service is back at one entry, but the next one it will be given is the third.
   */
  lemma RolledBack() returns (agreed: seq<LogRecord>, nodes: seq<Node>, steps: seq<Step>, args: SnapshotArgs)
    ensures Run(agreed, nodes, steps) && IsOfAgreed(agreed, args) && |agreed| == 4
    ensures var n := nodes[|nodes| - 1];
            && Cursor(n.s) == 2 && n.kv.state == After(agreed, 2)
            && var n' := Receive(n, args);
               n'.kv.state == After(agreed, 1) != After(agreed, 2) && DeliverIndex(n'.s) == 3
  {
    agreed := seq(4, i requires 0 <= i < 4 => if i == 0 then DUMMY else Tally(i));
    var s := Replicated();
    hide After, Replicated, Tally, LeavesApplying, InSync, Run, Receive, Agrees;
    ReplicatedIsReady();
    ReplicatedAgrees(agreed);
    nodes, steps := Example(s), Steps(s);
    args := SnapshotArgs(2, 1, 1, 2, Some(After(agreed, 1)));
    ExampleRuns(agreed, s);
    SnapshotPlusReplay(agreed, nodes, steps, 5);
    TakenBack(agreed, nodes[5], args);
    assert IsTally(agreed);
    TallyDiffers(agreed);
    TwoStates(agreed, 1, 2);
    hide Boot, HandleRecord;
  }
}
