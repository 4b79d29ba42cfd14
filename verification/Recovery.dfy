/**
 * One server with its service, over every run of Raft handlers, applied commands, snapshots and crashes
 * (src/kvraft/server.go:172-221, src/raft/raft_application.go, src/raft/raft_snapshot.go:21-47, src/raft/raft.go:139-143):
 * what the service holds is always the replay of a prefix of the agreed log, and the stored snapshot is the
 * replay of exactly Base entries, so a restart loses nothing.
 *
 * `agreed` is the log that State Machine Safety gives: the record that any server commits at each index.
 */
module Recovery {
  import opened KvTypes
  import opened RaftLog
  import opened RaftServer
  import opened KvServer
  import CommitRule
  import Majority

  // ---------- the service as a value ----------

  datatype Service = Service(lastApplied: int, state: KvState)

  datatype Node = Node(s: Server, kv: Service)

  /** A message with neither a command nor a snapshot in it is passed over. */
  predicate IsCommand(record: LogRecord) {
    record.commandValid && record.command.Some?
  }

  function ApplyRecord(state: KvState, record: LogRecord): KvState {
    if IsCommand(record) then Apply(state, record.command.value) else state
  }

  /** The state after the entries 1 .. n of a log. */
  function After(agreed: seq<LogRecord>, n: nat): KvState
    requires n < |agreed|
  {
    if n == 0 then EMPTY else ApplyRecord(After(agreed, n - 1), agreed[n])
  }

  function HandleRecord(kv: Service, index: int, record: LogRecord): Service {
    if !IsCommand(record) || index <= kv.lastApplied then kv
    else Service(index, ApplyRecord(kv.state, record))
  }

  function StartService(snapshot: Option<KvSnapshot>): Service {
    Service(0, if snapshot.Some? then snapshot.value else EMPTY)
  }

  // ---------- runs ----------

  datatype Step =
    | Raft(after: Server)
    | Collect
    | Deliver(snapshot: bool)
    | Finish
    | Crash

  /** What every handler but those of snapshots leaves alone. */
  ghost predicate LeavesApplying(s: Server, s': Server) {
    && s'.lastApplied == s.lastApplied && s'.batch == s.batch && s'.delivered == s.delivered
    && s'.log.base == s.log.base && s'.persister.snapshot == s.persister.snapshot
    && s'.commitIndex >= s.commitIndex && s'.me == s.me && s'.peers == s.peers
    && (OnDisk(s) ==> OnDisk(s'))
  }

  /** The log is what is on disk. */
  ghost predicate OnDisk(s: Server) {
    match s.persister.state
    case None => s.log == Log([DUMMY], 0)
    case Some(disk) => disk.log == s.log
  }

  /** What is committed above Base is what was agreed, and the record at Base has the term that was agreed there. */
  ghost predicate Agrees(agreed: seq<LogRecord>, s: Server) {
    && s.log.base <= s.commitIndex < s.log.Size() && s.commitIndex < |agreed|
    && s.log.Get(s.log.base).term == agreed[s.log.base].term
    && forall i :: s.log.base < i <= s.commitIndex ==> s.log.Get(i) == agreed[i]
  }

  ghost predicate Possible(agreed: seq<LogRecord>, n: Node, step: Step) {
    var s := n.s;
    match step
    case Raft(s') => LeavesApplying(s, s') && Agrees(agreed, s')
    case Collect => s.batch.None? && s.log.base <= s.lastApplied < s.log.Size() && s.commitIndex < s.log.Size()
    case Deliver(_) =>
      && s.batch.Some? && s.delivered < |s.batch.value|
      && (s.log.base <= DeliverIndex(s) <= s.commitIndex ==> DeliverIndex(s) < s.log.Size())
    case Finish => s.batch.Some? && s.delivered == |s.batch.value|
    case Crash => true
  }

  ghost function Take(agreed: seq<LogRecord>, n: Node, step: Step): Node
    requires Possible(agreed, n, step)
  {
    var s := n.s;
    match step
    case Raft(s') => Node(s', n.kv)
    case Collect => Node(CollectBatch(s), n.kv)
    case Deliver(snapshot) =>
      var index, record := DeliverIndex(s), s.batch.value[s.delivered];
      var kv := HandleRecord(n.kv, index, record);
      // Only a command that was handled may trigger a snapshot.
      if snapshot && kv != n.kv then Node(DeliverNext(TakeSnapshot(s, index, kv.state)), kv)
      else Node(DeliverNext(s), kv)
    case Finish => Node(FinishBatch(s), n.kv)
    case Crash => Node(Boot(s.me, s.peers, s.persister), StartService(s.persister.snapshot))
  }

  ghost predicate Run(agreed: seq<LogRecord>, nodes: seq<Node>, steps: seq<Step>) {
    && |nodes| == |steps| + 1 && agreed != [] && agreed[0].term == INVALID_TERM
    && (exists me, peers :: nodes[0] == Node(Boot(me, peers, Persister(None, None)), StartService(None)))
    && forall k :: 0 <= k < |steps| ==> Possible(agreed, nodes[k], steps[k]) && nodes[k + 1] == Take(agreed, nodes[k], steps[k])
  }

  // ---------- what every run keeps ----------

  /** How many entries the service has been given. */
  function Cursor(s: Server): int {
    s.lastApplied + s.delivered
  }

  ghost predicate BatchOk(agreed: seq<LogRecord>, s: Server) {
    && 0 <= s.lastApplied
    && match s.batch
       case None => s.delivered == 0 && s.lastApplied <= s.commitIndex
       case Some(batch) =>
         && s.delivered <= |batch| && s.lastApplied + |batch| <= s.commitIndex
         && s.commitIndex < |agreed| && batch == agreed[s.lastApplied + 1..s.lastApplied + 1 + |batch|]
  }

  ghost predicate SnapshotOk(agreed: seq<LogRecord>, s: Server) {
    && s.log.base < |agreed|
    && s.persister.snapshot == if s.log.base == 0 then None else Some(After(agreed, s.log.base))
  }

  ghost predicate ServiceOk(agreed: seq<LogRecord>, n: Node) {
    && 0 <= Cursor(n.s) < |agreed|
    && n.kv.state == After(agreed, Cursor(n.s)) && n.kv.lastApplied <= Cursor(n.s)
  }

  ghost predicate InSync(agreed: seq<LogRecord>, n: Node) {
    && OnDisk(n.s) && Agrees(agreed, n.s) && BatchOk(agreed, n.s) && SnapshotOk(agreed, n.s) && ServiceOk(agreed, n)
    && n.s.log.base <= Cursor(n.s) <= n.s.commitIndex
  }

  lemma KeepRaft(agreed: seq<LogRecord>, n: Node, step: Step)
    requires InSync(agreed, n) && Possible(agreed, n, step) && step.Raft?
    ensures InSync(agreed, Take(agreed, n, step))
  {
  }

  lemma Collected(agreed: seq<LogRecord>, s: Server)
    requires Agrees(agreed, s) && s.batch.None? && 0 <= s.log.base <= s.lastApplied <= s.commitIndex
    ensures BatchOk(agreed, CollectBatch(s))
  {
    var batch := CollectBatch(s).batch.value;
    var piece := agreed[s.lastApplied + 1..s.lastApplied + 1 + |batch|];
    forall k | 0 <= k < |batch| ensures batch[k] == piece[k] {
      assert batch[k] == s.log.Get(s.lastApplied + 1 + k);
    }
    assert batch == piece;
    hide Agrees;
  }

  lemma KeepCollect(agreed: seq<LogRecord>, n: Node, step: Step)
    requires InSync(agreed, n) && Possible(agreed, n, step) && step.Collect?
    ensures InSync(agreed, Take(agreed, n, step))
  {
    Collected(agreed, n.s);
    assert n.s.delivered == 0;
    hide BatchOk, After;
  }

  lemma KeepFinish(agreed: seq<LogRecord>, n: Node, step: Step)
    requires InSync(agreed, n) && Possible(agreed, n, step) && step.Finish?
    ensures InSync(agreed, Take(agreed, n, step))
  {
    hide After;
  }

  lemma KeepCrash(agreed: seq<LogRecord>, n: Node, step: Step)
    requires InSync(agreed, n) && Possible(agreed, n, step) && step.Crash?
    ensures InSync(agreed, Take(agreed, n, step))
  {
  }

  /** Raft's Snapshot with the state after `index` entries. */
  lemma SnapshotTaken(agreed: seq<LogRecord>, s: Server, index: int, state: KvState)
    requires Agrees(agreed, s) && BatchOk(agreed, s) && s.log.base <= index <= s.commitIndex && 0 < index
    requires state == After(agreed, index)
    ensures var s' := TakeSnapshot(s, index, state);
            && OnDisk(s') && Agrees(agreed, s') && SnapshotOk(agreed, s') && BatchOk(agreed, s') && s'.log.base == index
            && s'.commitIndex == s.commitIndex && s'.lastApplied == s.lastApplied
            && s'.batch == s.batch && s'.delivered == s.delivered
  {
    var s' := TakeSnapshot(s, index, state);
    hide After;
    forall i | index < i <= s.commitIndex ensures s'.log.Get(i) == agreed[i] {
      assert s'.log.Get(i) == s.log.Get(i);
    }
  }

  lemma DeliveredRecord(agreed: seq<LogRecord>, n: Node)
    requires BatchOk(agreed, n.s) && ServiceOk(agreed, n) && n.s.batch.Some? && n.s.delivered < |n.s.batch.value|
    ensures 0 < DeliverIndex(n.s) == Cursor(n.s) + 1 <= n.s.commitIndex && DeliverIndex(n.s) < |agreed|
    ensures var kv := HandleRecord(n.kv, DeliverIndex(n.s), n.s.batch.value[n.s.delivered]);
            kv.state == After(agreed, DeliverIndex(n.s)) && kv.lastApplied <= DeliverIndex(n.s)
  {
    assert n.s.batch.value[n.s.delivered] == agreed[DeliverIndex(n.s)];
  }

  lemma MovedOn(agreed: seq<LogRecord>, s: Server, kv: Service)
    requires OnDisk(s) && Agrees(agreed, s) && BatchOk(agreed, s) && SnapshotOk(agreed, s)
    requires s.batch.Some? && s.delivered < |s.batch.value|
    requires 0 <= s.log.base <= Cursor(s) + 1 <= s.commitIndex
    requires kv.state == After(agreed, Cursor(s) + 1) && kv.lastApplied <= Cursor(s) + 1
    ensures InSync(agreed, Node(DeliverNext(s), kv))
  {
    hide After;
  }

  lemma KeepDeliver(agreed: seq<LogRecord>, n: Node, step: Step)
    requires InSync(agreed, n) && Possible(agreed, n, step) && step.Deliver?
    ensures InSync(agreed, Take(agreed, n, step))
  {
    var index := DeliverIndex(n.s);
    var kv := HandleRecord(n.kv, index, n.s.batch.value[n.s.delivered]);
    hide After, HandleRecord, TakeSnapshot, OnDisk, Agrees, BatchOk, SnapshotOk, ServiceOk;
    DeliveredRecord(agreed, n);
    assert OnDisk(n.s) && Agrees(agreed, n.s) && BatchOk(agreed, n.s) && SnapshotOk(agreed, n.s) && n.s.log.base <= Cursor(n.s);
    hide InSync;
    if step.snapshot && kv != n.kv {
      SnapshotTaken(agreed, n.s, index, kv.state);
      MovedOn(agreed, TakeSnapshot(n.s, index, kv.state), kv);
    } else {
      MovedOn(agreed, n.s, kv);
    }
  }

  lemma Keep(agreed: seq<LogRecord>, n: Node, step: Step)
    requires InSync(agreed, n) && Possible(agreed, n, step)
    ensures InSync(agreed, Take(agreed, n, step))
  {
    hide InSync, Possible, Take;
    match step
    case Raft(_) => KeepRaft(agreed, n, step);
    case Collect => KeepCollect(agreed, n, step);
    case Deliver(_) => KeepDeliver(agreed, n, step);
    case Finish => KeepFinish(agreed, n, step);
    case Crash => KeepCrash(agreed, n, step);
  }

  /**
   * Over every run: the service holds the replay of the entries it was given, whatever snapshots and crashes
   * lie behind, and the stored snapshot is the replay of exactly Base entries.
   */
  lemma {:induction false} SnapshotPlusReplay(agreed: seq<LogRecord>, nodes: seq<Node>, steps: seq<Step>, k: nat)
    requires Run(agreed, nodes, steps) && k < |nodes|
    ensures InSync(agreed, nodes[k])
  {
    if k > 0 {
      SnapshotPlusReplay(agreed, nodes, steps, k - 1);
      hide InSync, Possible, Take;
      Keep(agreed, nodes[k - 1], steps[k - 1]);
      assert nodes[k - 1 + 1] == Take(agreed, nodes[k - 1], steps[k - 1]);
    }
  }

  /** What the apply loop goes on to deliver of its batch, without a snapshot. */
  ghost function DeliverRest(agreed: seq<LogRecord>, n: Node): (n': Node)
    requires InSync(agreed, n) && n.s.batch.Some?
    ensures InSync(agreed, n') && n'.s == n.s.(delivered := |n.s.batch.value|)
    decreases |n.s.batch.value| - n.s.delivered
  {
    if n.s.delivered == |n.s.batch.value| then n
    else
      DeliverPossible(agreed, n);
      Keep(agreed, n, Deliver(false));
      DeliverRest(agreed, Take(agreed, n, Deliver(false)))
  }

  lemma DeliverPossible(agreed: seq<LogRecord>, n: Node)
    requires InSync(agreed, n) && n.s.batch.Some? && n.s.delivered < |n.s.batch.value|
    ensures Possible(agreed, n, Deliver(false)) && Take(agreed, n, Deliver(false)).s == DeliverNext(n.s)
  {
    hide After, HandleRecord;
  }

  lemma CollectStarts(agreed: seq<LogRecord>, n: Node)
    requires InSync(agreed, n) && n.s.batch.None?
    ensures Possible(agreed, n, Collect)
    ensures var s := Take(agreed, n, Collect).s;
            s.batch.Some? && s.lastApplied + |s.batch.value| == n.s.commitIndex && s.commitIndex == n.s.commitIndex
  {
    hide After, OnDisk, SnapshotOk;
  }

  lemma FinishEnds(agreed: seq<LogRecord>, n: Node)
    requires InSync(agreed, n) && n.s.batch.Some? && n.s.delivered == |n.s.batch.value|
    ensures Possible(agreed, n, Finish)
    ensures var n' := Take(agreed, n, Finish);
            && n'.s.batch.None? && 0 <= n'.s.lastApplied == n.s.lastApplied + |n.s.batch.value| < |agreed|
            && n'.kv.state == After(agreed, n'.s.lastApplied)
  {
    hide After, OnDisk, SnapshotOk;
  }

  /** One round of the apply loop brings the service to everything that was committed when it began. */
  lemma AppliesAllCommitted(agreed: seq<LogRecord>, n: Node)
    requires InSync(agreed, n) && n.s.batch.None?
    ensures 0 <= n.s.commitIndex < |agreed| && Possible(agreed, n, Collect)
    ensures InSync(agreed, Take(agreed, n, Collect)) && Take(agreed, n, Collect).s.batch.Some?
    ensures var n1 := DeliverRest(agreed, Take(agreed, n, Collect));
            && Possible(agreed, n1, Finish)
            && var n2 := Take(agreed, n1, Finish);
               && InSync(agreed, n2) && n2.s.lastApplied == n.s.commitIndex && n2.s.batch.None?
               && n2.kv.state == After(agreed, n.s.commitIndex)
  {
    hide After, InSync, Possible, Take;
    CollectStarts(agreed, n);
    Keep(agreed, n, Collect);
    var n1 := DeliverRest(agreed, Take(agreed, n, Collect));
    FinishEnds(agreed, n1);
    Keep(agreed, n1, Finish);
  }

  /** Crashes and snapshots do not show: servers that were given equally many entries hold the same state. */
  lemma ReplicasAgree(agreed: seq<LogRecord>, a: seq<Node>, stepsA: seq<Step>, i: nat, b: seq<Node>, stepsB: seq<Step>, j: nat)
    requires Run(agreed, a, stepsA) && i < |a| && Run(agreed, b, stepsB) && j < |b|
    requires Cursor(a[i].s) == Cursor(b[j].s)
    ensures a[i].kv.state == b[j].kv.state
  {
    SnapshotPlusReplay(agreed, a, stepsA, i);
    SnapshotPlusReplay(agreed, b, stepsB, j);
  }

  /** The handlers of elections, replication and clients do leave alone what the runs above take them to. */
  lemma HandlersLeaveApplying(p: CommitRule.Process, e: CommitRule.Event)
    requires CommitRule.Possible(p, e) && !e.Snapshot? && !e.Install? && !e.Crash?
    ensures LeavesApplying(p.s, CommitRule.Handle(p, e))
  {
    if e.AppendBack? || e.Append? {
      ReplicationLeavesApplying(p, e);
    } else {
      hide IsMoreUpToDate;
    }
  }

  lemma ReplicationLeavesApplying(p: CommitRule.Process, e: CommitRule.Event)
    requires CommitRule.Possible(p, e) && (e.AppendBack? || e.Append?)
    ensures LeavesApplying(p.s, CommitRule.Handle(p, e))
  {
    hide Majority.MajorityIndex, BackUp, ScanFor;
  }
}
