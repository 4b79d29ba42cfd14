/**
 * One Raft server as a value, and what each lock-held block of the code does to it
 * (src/raft/raft.go, raft_roleTrans.go, raft_election.go, raft_replication.go, raft_persistence.go,
 * raft_application.go). RaftNode.dfy has the same handlers in place on an object.
 */
module RaftServer {
  import opened KvTypes
  import opened RaftLog
  import opened Majority

  datatype Role = Follower | Candidate | Leader

  const NO_VOTE := -1

  datatype Disk = Disk(currentTerm: nat, votedFor: int, log: Log)

  /** What survives a crash: the encoded Raft state, absent before the first save, and the snapshot. */
  datatype Persister = Persister(state: Option<Disk>, snapshot: Option<KvSnapshot>)

  datatype Server = Server(
    me: nat,
    peers: nat,
    role: Role,
    currentTerm: nat,
    votedFor: int,
    log: Log,
    nextIndex: seq<int>,
    matchIndex: seq<int>,
    commitIndex: int,
    lastApplied: int,
    // The startElection goroutines not yet run, and the `votes` variable of each one that has.
    pending: set<nat>,
    votes: map<nat, nat>,
    // The entries the apply loop has collected, and how many of them it has delivered.
    batch: Option<seq<LogRecord>>,
    delivered: nat,
    persister: Persister)

  datatype VoteArgs = VoteArgs(term: nat, candidateId: nat, lastLogIndex: int, lastLogTerm: nat)
  datatype VoteReply = VoteReply(term: nat, voteGranted: bool)

  datatype AppendArgs = AppendArgs(term: nat, leaderId: nat, prevLogIndex: int, prevLogTerm: nat,
                                   entries: seq<LogRecord>, leaderCommit: int)
  datatype AppendReply = AppendReply(term: nat, success: bool, conflictIndex: int, conflictTerm: nat)

  datatype SnapshotArgs = SnapshotArgs(term: nat, leaderId: nat, lastIncludedIndex: int, lastIncludedTerm: nat,
                                       data: Option<KvSnapshot>)

  datatype Outgoing = SendAppend(append: AppendArgs) | SendSnapshot(snapshot: SnapshotArgs)

  // ---------- persistence and restart ----------

  function Persist(s: Server): Server {
    s.(persister := s.persister.(state := Some(Disk(s.currentTerm, s.votedFor, s.log))))
  }

  /** A process started on what `p` holds: Make followed by readPersist. */
  function Boot(me: nat, peers: nat, p: Persister): Server {
    var disk := if p.state.Some? then p.state.value else Disk(1, NO_VOTE, Log([DUMMY], 0));
    var applied := if disk.log.base > 0 then disk.log.base else 0;
    Server(me, peers, Follower, disk.currentTerm, disk.votedFor, disk.log,
           seq(peers, _ => 0), seq(peers, _ => 0), applied, applied, {}, map[], None, 0, p)
  }

  // ---------- role changes ----------

  function BecomeFollower(s: Server, term: nat): Server {
    if term < s.currentTerm then s
    else
      var s' := s.(votedFor := if term > s.currentTerm then NO_VOTE else s.votedFor,
                   role := Follower,
                   currentTerm := term);
      if term != s.currentTerm then Persist(s') else s'
  }

  function BecomeCandidate(s: Server): Server {
    if s.role == Leader then s
    else Persist(s.(role := Candidate, currentTerm := s.currentTerm + 1, votedFor := s.me))
  }

  function BecomeLeader(s: Server): Server {
    if s.role != Candidate then s
    else s.(role := Leader,
            nextIndex := seq(s.peers, _ => s.log.Size()),
            matchIndex := seq(s.peers, _ => s.log.base))
  }

  predicate ContextLost(s: Server, role: Role, term: nat) {
    !(s.currentTerm == term && s.role == role)
  }

  // ---------- elections ----------

  /** The body of electionTicker once the timer has expired: an expired timer is a free choice. */
  function ElectionTimeout(s: Server): Server {
    if s.role == Leader then s
    else
      var s' := BecomeCandidate(s);
      s'.(pending := s'.pending + {s'.currentTerm})
  }

  function VoteRequest(s: Server): VoteArgs
    requires |s.log.records| > 0
  {
    VoteArgs(s.currentTerm, s.me, s.log.Size() - 1, s.log.LastLogTerm())
  }

  /** startElection(term) asks the other peers exactly when it does not lose its context. */
  predicate AsksVotes(s: Server, term: nat) {
    !ContextLost(s, Candidate, term)
  }

  function StartElection(s: Server, term: nat): Server {
    var s' := s.(pending := s.pending - {term});
    if AsksVotes(s, term) then s'.(votes := s'.votes[term := 1]) else s'
  }

  predicate IsMoreUpToDate(s: Server, candidateTerm: nat, candidateIndex: int)
    requires |s.log.records| > 0
  {
    var lastTerm, lastIndex := s.log.LastLogTerm(), s.log.Size() - 1;
    if lastTerm != candidateTerm then lastTerm > candidateTerm else lastIndex > candidateIndex
  }

  function HandleVote(s: Server, args: VoteArgs): (r: (Server, VoteReply))
    requires |s.log.records| > 0
  {
    var reply := VoteReply(s.currentTerm, false);
    if args.term < s.currentTerm then (s, reply)
    else
      var s1 := if args.term > s.currentTerm then BecomeFollower(s, args.term) else s;
      if s1.votedFor != NO_VOTE then (s1, reply)
      else if IsMoreUpToDate(s1, args.lastLogTerm, args.lastLogIndex) then (s1, reply)
      else (Persist(s1.(votedFor := args.candidateId)), reply.(voteGranted := true))
  }

  /** A vote reply reaches the counter only past the two early returns. */
  predicate CountsVote(s: Server, reply: VoteReply) {
    reply.term <= s.currentTerm && !ContextLost(s, Candidate, s.currentTerm)
  }

  /** A reply to the election of term `election`, whose `votes` variable is `s.votes[election]`. */
  function HandleVoteReply(s: Server, election: nat, reply: VoteReply): Server
    requires election in s.votes
  {
    if reply.term > s.currentTerm then BecomeFollower(s, reply.term)
    else if !CountsVote(s, reply) then s
    else
      var votes := s.votes[election] + if reply.voteGranted then 1 else 0;
      var s' := s.(votes := s.votes[election := votes]);
      if votes > s.peers / 2 then BecomeLeader(s') else s'
  }

  // ---------- replication ----------

  function Start(s: Server, command: Op): Server {
    if s.role != Leader then s
    else Persist(s.(log := s.log.Append(LogRecord(s.currentTerm, true, Some(command)))))
  }

  /** What startReplication sends to one other peer. */
  function ReplicationMessage(s: Server, peer: nat): Outgoing
    requires peer < |s.nextIndex|
    requires |s.log.records| > 0 && s.nextIndex[peer] <= s.log.Size()
  {
    var prevIdx := s.nextIndex[peer] - 1;
    if prevIdx < s.log.base then
      SendSnapshot(SnapshotArgs(s.currentTerm, s.me, s.log.base, s.log.records[0].term, s.persister.snapshot))
    else
      SendAppend(AppendArgs(s.currentTerm, s.me, prevIdx, s.log.Get(prevIdx).term,
                            s.log.records[prevIdx + 1 - s.log.base..], s.commitIndex))
  }

  function StartReplication(s: Server, term: nat): Server
    requires s.me < |s.nextIndex| && s.me < |s.matchIndex|
  {
    if ContextLost(s, Leader, term) then s
    else s.(matchIndex := s.matchIndex[s.me := s.log.Size() - 1],
            nextIndex := s.nextIndex[s.me := s.log.Size()])
  }

  /**
   * The request is of an older term, or its PrevLogIndex is not below Base. On any other the code indexes
   * the records before their start, and the process panics.
   */
  predicate Readable(s: Server, args: AppendArgs) {
    args.term < s.currentTerm || s.log.base <= args.prevLogIndex
  }

  function HandleAppend(s: Server, args: AppendArgs): (r: (Server, AppendReply))
    requires Readable(s, args)
  {
    var reply := AppendReply(s.currentTerm, false, 0, INVALID_TERM);
    if args.term < s.currentTerm then (s, reply)
    else
      var s1 := BecomeFollower(s, args.term);
      if args.prevLogIndex >= s1.log.Size() then
        (s1, reply.(conflictTerm := INVALID_TERM, conflictIndex := s1.log.Size()))
      else if s1.log.Get(args.prevLogIndex).term != args.prevLogTerm then
        var conflictTerm := s1.log.Get(args.prevLogIndex).term;
        (s1, reply.(conflictTerm := conflictTerm, conflictIndex := s1.log.FirstLogFor(conflictTerm)))
      else
        var kept := s1.log.records[..args.prevLogIndex + 1 - s1.log.base];
        var s2 := Persist(s1.(log := s1.log.(records := kept + args.entries)));
        var s3 := if args.leaderCommit > s2.commitIndex then s2.(commitIndex := args.leaderCommit) else s2;
        (s3, reply.(success := true))
  }

  /** The next probe after a rejection. */
  function BackUp(s: Server, next: int, reply: AppendReply): int {
    var target :=
      if reply.conflictTerm == INVALID_TERM then reply.conflictIndex
      else
        var firstTermIndex := s.log.FirstLogFor(reply.conflictTerm);
        if firstTermIndex != INVALID_INDEX then firstTermIndex else reply.conflictIndex;
    if target > next then next else target
  }

  function AdvanceCommit(s: Server): Server
    requires |s.matchIndex| > 0
    requires s.log.base <= s.commitIndex
    requires forall p :: 0 <= p < |s.matchIndex| ==> s.matchIndex[p] < s.log.Size()
  {
    MajorityIndexIsMember(s.matchIndex);
    var m := MajorityIndex(s.matchIndex);
    if m > s.commitIndex && s.log.Get(m).term == s.currentTerm then s.(commitIndex := m) else s
  }

  /** Whether a reply to `args` is still handled by the leader that sent it. */
  predicate AppendReplyCounts(s: Server, args: AppendArgs, reply: AppendReply) {
    reply.term <= s.currentTerm && !ContextLost(s, Leader, args.term)
  }

  function HandleAppendReply(s: Server, peer: nat, args: AppendArgs, reply: AppendReply): Server
    requires peer < |s.matchIndex| == |s.nextIndex|
    requires AppendReplyCounts(s, args, reply) ==>
               && s.log.base <= s.commitIndex
               && args.prevLogIndex + |args.entries| < s.log.Size()
               && forall p :: 0 <= p < |s.matchIndex| ==> s.matchIndex[p] < s.log.Size()
  {
    if reply.term > s.currentTerm then BecomeFollower(s, reply.term)
    else if ContextLost(s, Leader, args.term) then s
    else if !reply.success then s.(nextIndex := s.nextIndex[peer := BackUp(s, s.nextIndex[peer], reply)])
    else
      var matched := args.prevLogIndex + |args.entries|;
      AdvanceCommit(s.(matchIndex := s.matchIndex[peer := matched], nextIndex := s.nextIndex[peer := matched + 1]))
  }

  // ---------- applying ----------

  /** Phase 1 of applicationTicker: the entries past lastApplied that are committed, copied under the lock. */
  function CollectBatch(s: Server): Server
    requires s.batch.None?
    requires s.log.base <= s.lastApplied && s.lastApplied < s.log.Size() && s.commitIndex < s.log.Size()
  {
    var entries := if s.commitIndex <= s.lastApplied then []
                   else s.log.records[s.lastApplied + 1 - s.log.base..s.commitIndex + 1 - s.log.base];
    s.(batch := Some(entries), delivered := 0)
  }

  /** Phase 2: one message on the apply channel, without the lock. */
  function DeliverIndex(s: Server): int {
    s.lastApplied + 1 + s.delivered
  }

  function DeliverNext(s: Server): Server
    requires s.batch.Some? && s.delivered < |s.batch.value|
  {
    s.(delivered := s.delivered + 1)
  }

  /** Phase 3: lastApplied moves past the batch. */
  function FinishBatch(s: Server): Server
    requires s.batch.Some? && s.delivered == |s.batch.value|
  {
    s.(lastApplied := s.lastApplied + |s.batch.value|, batch := None, delivered := 0)
  }

  // ---------- snapshots ----------

  /** persistLocked(snapshot): nil keeps the snapshot that is stored. */
  function PersistSnapshot(s: Server, snapshot: Option<KvSnapshot>): Server {
    var s' := Persist(s);
    if snapshot.None? then s' else s'.(persister := s'.persister.(snapshot := snapshot))
  }

  /** The log from `index` on, its first record reduced to `term`. */
  function Compact(log: Log, index: int, term: nat): Log
    requires log.base <= index
  {
    var kept := if index + 1 < log.Size() then log.records[index + 1 - log.base..] else [];
    Log([LogRecord(term, false, None)] + kept, index)
  }

  function TakeSnapshot(s: Server, index: int, snapshot: KvSnapshot): Server
    requires s.log.base <= index <= s.commitIndex ==> index < s.log.Size()
  {
    if index > s.commitIndex || index < s.log.base then s
    else PersistSnapshot(s.(log := Compact(s.log, index, s.log.Get(index).term)), Some(snapshot))
  }

  function InstallSnapshot(s: Server, args: SnapshotArgs): Server {
    if args.term < s.currentTerm then s
    else
      var s1 := BecomeFollower(s, args.term);
      if args.lastIncludedIndex <= s1.log.base then s1
      else
        PersistSnapshot(s1.(log := Compact(s1.log, args.lastIncludedIndex, args.lastIncludedTerm),
                            commitIndex := if args.lastIncludedIndex > s1.commitIndex
                                           then args.lastIncludedIndex else s1.commitIndex,
                            lastApplied := if args.lastIncludedIndex > s1.lastApplied
                                           then args.lastIncludedIndex else s1.lastApplied),
                        args.data)
  }

  /** The reply to a snapshot: the code makes no context check here. */
  function HandleSnapshotReply(s: Server, peer: nat, args: SnapshotArgs, replyTerm: nat): Server
    requires peer < |s.nextIndex| == |s.matchIndex|
  {
    if replyTerm > s.currentTerm then BecomeFollower(s, replyTerm)
    else s.(nextIndex := s.nextIndex[peer := args.lastIncludedIndex + 1],
            matchIndex := s.matchIndex[peer := args.lastIncludedIndex])
  }
}
