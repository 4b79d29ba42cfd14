/**
 * A cluster of Raft servers and the messages between them, as a step machine. Each lock-held block of
 * the code is one step. A request or reply that is never handled is lost; delay and reordering are the
 * free choice of the next step. A vote request and a vote reply are each handled at most once, as one
 * call of the RPC layer returns once; an append request or reply may even be handled again.
 */
module Cluster {
  import opened FiniteSets
  import opened KvTypes
  import opened RaftLog
  import opened RaftServer

  datatype VoteReqMsg = VoteReqMsg(to: nat, args: VoteArgs)
  datatype VoteRepMsg = VoteRepMsg(from: nat, to: nat, election: nat, reply: VoteReply)
  datatype AppendReqMsg = AppendReqMsg(to: nat, args: AppendArgs, sentAt: nat)
  datatype AppendRepMsg = AppendRepMsg(from: nat, args: AppendArgs, reply: AppendReply)

  datatype Leaders = Leaders(
    leaderOf: map<nat, nat>,                    // term -> its leader
    leaderLog: map<nat, seq<LogRecord>>,        // term -> its leader's log, as far as it got
    start: map<nat, nat>)                       // term -> the length of that log at the election

  /** What has happened so far. No step's effect on the servers or the network reads it. */
  datatype History = History(
    ballots: map<(nat, nat), nat>,              // (voter, term) -> the candidate voted for
    counted: map<(nat, nat), set<nat>>,         // (candidate, election) -> the voters counted
    candLog: map<(nat, nat), seq<LogRecord>>,   // (candidate, term) -> its log when it stood
    lead: Leaders,
    source: seq<nat>,                           // server -> the term whose leader log it last took over
    acked: map<(nat, nat), nat>,                // (server, term) -> how much of that leader log it took over
    lastSeen: map<(nat, nat), nat>,             // (server, term) -> when the message last accepted was sent
    applied: set<(int, LogRecord)>)             // what any server ever put on its apply channel

  datatype Cluster = Cluster(
    servers: seq<Server>,
    voteReqs: set<VoteReqMsg>,
    voteReps: set<VoteRepMsg>,
    appendReqs: set<AppendReqMsg>,
    appendReps: set<AppendRepMsg>,
    clock: nat,
    hist: History)

  datatype Step =
    | Timeout(i: nat)
    | Elect(i: nat, term: nat)
    | Vote(voteReq: VoteReqMsg)
    | VoteBack(voteRep: VoteRepMsg)
    | Client(i: nat, op: Op)
    | Replicate(i: nat, term: nat)
    | Append(appendReq: AppendReqMsg)
    | AppendBack(appendRep: AppendRepMsg)
    | Crash(i: nat)
    | Collect(i: nat)
    | Deliver(i: nat)
    | Finish(i: nat)

  function Initial(n: nat): Cluster {
    Cluster(seq(n, i requires 0 <= i < n => Boot(i, n, Persister(None, None))), {}, {}, {}, {}, 0,
            History(map[], map[], map[], Leaders(map[], map[0 := [DUMMY]], map[0 := 0]), seq(n, _ => 0), map[], map[], {}))
  }

  // ---------- the steps ----------

  function DoTimeout(st: Cluster, i: nat): Cluster
    requires i < |st.servers|
  {
    var s := st.servers[i];
    var s' := ElectionTimeout(s);
    if s.role == Leader then st
    else st.(servers := st.servers[i := s'],
             hist := st.hist.(ballots := st.hist.ballots[(i, s'.currentTerm) := i],
                              candLog := st.hist.candLog[(i, s'.currentTerm) := s.log.records]))
  }

  function DoElect(st: Cluster, i: nat, term: nat): Cluster
    requires i < |st.servers| && |st.servers[i].log.records| > 0
  {
    var s := st.servers[i];
    var st' := st.(servers := st.servers[i := StartElection(s, term)]);
    if AsksVotes(s, term) then
      st'.(voteReqs := st.voteReqs + set p: nat | p in Upto(|st.servers|) && p != i :: VoteReqMsg(p, VoteRequest(s)),
           hist := st.hist.(counted := st.hist.counted[(i, term) := {i}]))
    else st'
  }

  function DoVote(st: Cluster, m: VoteReqMsg): Cluster
    requires m.to < |st.servers| && |st.servers[m.to].log.records| > 0
  {
    var (s', reply) := HandleVote(st.servers[m.to], m.args);
    st.(servers := st.servers[m.to := s'],
        voteReqs := st.voteReqs - {m},
        voteReps := st.voteReps + {VoteRepMsg(m.to, m.args.candidateId, m.args.term, reply)},
        hist := if reply.voteGranted
                then st.hist.(ballots := st.hist.ballots[(m.to, m.args.term) := m.args.candidateId])
                else st.hist)
  }

  /** The history of a vote reply: the voter counted, and the leader the count may make. */
  function VoteBackHistory(st: Cluster, m: VoteRepMsg): History
    requires m.to < |st.servers| == |st.hist.source| && m.election in st.servers[m.to].votes
    requires (m.to, m.election) in st.hist.counted
  {
    var h := st.hist;
    var s := st.servers[m.to];
    var s' := HandleVoteReply(s, m.election, m.reply);
    var h1 := if CountsVote(s, m.reply) && m.reply.voteGranted
              then h.(counted := h.counted[(m.to, m.election) := h.counted[(m.to, m.election)] + {m.from}])
              else h;
    if s'.role == Leader && s.role != Leader then
      h1.(lead := Leaders(h.lead.leaderOf[s.currentTerm := m.to],
                          h.lead.leaderLog[s.currentTerm := s.log.records],
                          h.lead.start[s.currentTerm := |s.log.records|]),
          source := h.source[m.to := s.currentTerm],
          acked := h.acked[(m.to, s.currentTerm) := |s.log.records|])
    else h1
  }

  function DoVoteBack(st: Cluster, m: VoteRepMsg): Cluster
    requires m.to < |st.servers| == |st.hist.source| && m.election in st.servers[m.to].votes
    requires (m.to, m.election) in st.hist.counted
  {
    st.(servers := st.servers[m.to := HandleVoteReply(st.servers[m.to], m.election, m.reply)],
        voteReps := st.voteReps - {m},
        hist := VoteBackHistory(st, m))
  }

  function DoClient(st: Cluster, i: nat, op: Op): Cluster
    requires i < |st.servers|
  {
    var s := st.servers[i];
    var s' := Start(s, op);
    if s.role != Leader then st
    else st.(servers := st.servers[i := s'],
             hist := st.hist.(lead := st.hist.lead.(leaderLog := st.hist.lead.leaderLog[s.currentTerm := s'.log.records]),
                              acked := st.hist.acked[(i, s.currentTerm) := |s'.log.records|]))
  }

  /** What a peer at or below the leader's Base is sent is not an append request. */
  predicate CanReplicate(s: Server) {
    && |s.log.records| > 0
    && s.me < s.peers == |s.nextIndex| == |s.matchIndex|
    && forall p :: 0 <= p < s.peers && p != s.me ==> s.log.base < s.nextIndex[p] <= s.log.Size()
  }

  function DoReplicate(st: Cluster, i: nat, term: nat): Cluster
    requires i < |st.servers|
    requires !ContextLost(st.servers[i], Leader, term) ==> CanReplicate(st.servers[i])
  {
    var s := st.servers[i];
    if ContextLost(s, Leader, term) then st
    else st.(servers := st.servers[i := StartReplication(s, term)],
             appendReqs := st.appendReqs + set p: nat | p in Upto(s.peers) && p != s.me ::
                 AppendReqMsg(p, ReplicationMessage(s, p).append, st.clock),
             clock := st.clock + 1)
  }

  function DoAppend(st: Cluster, m: AppendReqMsg): Cluster
    requires m.to < |st.servers| == |st.hist.source| && Readable(st.servers[m.to], m.args)
  {
    var h := st.hist;
    var (s', reply) := HandleAppend(st.servers[m.to], m.args);
    var key := (m.to, m.args.term);
    var total := |s'.log.records|;
    st.(servers := st.servers[m.to := s'],
        appendReps := st.appendReps + {AppendRepMsg(m.to, m.args, reply)},
        hist := if reply.success
                then h.(source := h.source[m.to := m.args.term],
                        acked := h.acked[key := if key in h.acked && h.acked[key] > total then h.acked[key] else total],
                        lastSeen := h.lastSeen[key := m.sentAt])
                else h)
  }

  predicate CanHandleReply(s: Server, m: AppendRepMsg) {
    && m.from < |s.matchIndex| == |s.nextIndex|
    && (AppendReplyCounts(s, m.args, m.reply) ==>
          && s.log.base <= s.commitIndex
          && m.args.prevLogIndex + |m.args.entries| < s.log.Size()
          && forall p :: 0 <= p < |s.matchIndex| ==> s.matchIndex[p] < s.log.Size())
  }

  function DoAppendBack(st: Cluster, m: AppendRepMsg): Cluster
    requires m.args.leaderId < |st.servers| && CanHandleReply(st.servers[m.args.leaderId], m)
  {
    var i := m.args.leaderId;
    st.(servers := st.servers[i := HandleAppendReply(st.servers[i], m.from, m.args, m.reply)])
  }

  function DoCrash(st: Cluster, i: nat): Cluster
    requires i < |st.servers|
  {
    var s := st.servers[i];
    st.(servers := st.servers[i := Boot(s.me, s.peers, s.persister)])
  }

  predicate CanCollect(s: Server) {
    s.log.base <= s.lastApplied && s.lastApplied < s.log.Size() && s.commitIndex < s.log.Size()
  }

  function DoDeliver(st: Cluster, i: nat): Cluster
    requires i < |st.servers| && st.servers[i].batch.Some? && st.servers[i].delivered < |st.servers[i].batch.value|
  {
    var s := st.servers[i];
    st.(servers := st.servers[i := DeliverNext(s)],
        hist := st.hist.(applied := st.hist.applied + {(DeliverIndex(s), s.batch.value[s.delivered])}))
  }

  /** The one server that a step changes. */
  function Actor(step: Step): nat {
    match step
    case Vote(m) => m.to
    case VoteBack(m) => m.to
    case Append(m) => m.to
    case AppendBack(m) => m.args.leaderId
    case _ => step.i
  }

  /** The step may be taken: its server exists, its message is in flight, its goroutine is alive. */
  predicate Enabled(st: Cluster, step: Step) {
    match step
    case Timeout(i) => i < |st.servers|
    case Elect(i, term) => i < |st.servers| && term in st.servers[i].pending
    case Vote(m) => m in st.voteReqs && m.to < |st.servers|
    case VoteBack(m) => m in st.voteReps && m.to < |st.servers| && m.election in st.servers[m.to].votes
    case Client(i, _) => i < |st.servers|
    case Replicate(i, _) => i < |st.servers|
    case Append(m) => m in st.appendReqs && m.to < |st.servers|
    case AppendBack(m) => m in st.appendReps && m.args.leaderId < |st.servers|
    case Crash(i) => i < |st.servers|
    case Collect(i) => i < |st.servers| && st.servers[i].batch.None?
    case Deliver(i) =>
      i < |st.servers| && st.servers[i].batch.Some? && st.servers[i].delivered < |st.servers[i].batch.value|
    case Finish(i) =>
      i < |st.servers| && st.servers[i].batch.Some? && st.servers[i].delivered == |st.servers[i].batch.value|
  }

  /** The step does not index a slice out of range: where it would, the process panics. */
  predicate Defined(st: Cluster, step: Step)
    requires Enabled(st, step)
  {
    && |st.servers| == |st.hist.source|
    && match step
       case Elect(i, term) => |st.servers[i].log.records| > 0
       case Vote(m) => |st.servers[m.to].log.records| > 0
       case VoteBack(m) => (m.to, m.election) in st.hist.counted
       case Replicate(i, term) => !ContextLost(st.servers[i], Leader, term) ==> CanReplicate(st.servers[i])
       case Append(m) => Readable(st.servers[m.to], m.args)
       case AppendBack(m) => CanHandleReply(st.servers[m.args.leaderId], m)
       case Collect(i) => CanCollect(st.servers[i])
       case _ => true
  }

  function Apply(st: Cluster, step: Step): Cluster
    requires Enabled(st, step) && Defined(st, step)
  {
    match step
    case Timeout(i) => DoTimeout(st, i)
    case Elect(i, term) => DoElect(st, i, term)
    case Vote(m) => DoVote(st, m)
    case VoteBack(m) => DoVoteBack(st, m)
    case Client(i, op) => DoClient(st, i, op)
    case Replicate(i, term) => DoReplicate(st, i, term)
    case Append(m) => DoAppend(st, m)
    case AppendBack(m) => DoAppendBack(st, m)
    case Crash(i) => DoCrash(st, i)
    case Collect(i) => st.(servers := st.servers[i := CollectBatch(st.servers[i])])
    case Deliver(i) => DoDeliver(st, i)
    case Finish(i) => st.(servers := st.servers[i := FinishBatch(st.servers[i])])
  }

  ghost predicate Next(st: Cluster, step: Step, st': Cluster) {
    Enabled(st, step) && Defined(st, step) && st' == Apply(st, step)
  }

  // ---------- runs and the two hypotheses about them ----------

  /** The reply makes its candidate the leader of its term. */
  predicate Wins(st: Cluster, m: VoteRepMsg)
    requires m.to < |st.servers| && m.election in st.servers[m.to].votes
  {
    st.servers[m.to].role != Leader && HandleVoteReply(st.servers[m.to], m.election, m.reply).role == Leader
  }

  /**
   * The context check that askVoteFromPeer is meant to make, where it matters: a reply that makes a leader
   * belongs to the candidate's current term. The code compares rf.currentTerm with itself and so checks the
   * role alone.
   */
  predicate OwnTermVote(st: Cluster, step: Step) {
    Enabled(st, step) && step.VoteBack? && Wins(st, step.voteRep) ==>
      step.voteRep.election == st.servers[step.voteRep.to].currentTerm
  }

  /** The length of the log that an accepted request makes. */
  function Total(args: AppendArgs): int {
    args.prevLogIndex + 1 + |args.entries|
  }

  /** A request that is accepted reaches at least as far as what the follower took over in its term. */
  predicate Reaches(st: Cluster, step: Step) {
    Enabled(st, step) && Defined(st, step) && step.Append? &&
    HandleAppend(st.servers[step.appendReq.to], step.appendReq.args).1.success ==>
      var key := (step.appendReq.to, step.appendReq.args.term);
      key in st.hist.acked ==> st.hist.acked[key] <= Total(step.appendReq.args)
  }

  /** The follower has accepted no append request of this term that was sent later. */
  predicate InOrder(st: Cluster, step: Step) {
    step.Append? ==>
      var key := (step.appendReq.to, step.appendReq.args.term);
      key in st.hist.lastSeen ==> st.hist.lastSeen[key] <= step.appendReq.sentAt
  }

  ghost predicate Run(states: seq<Cluster>, steps: seq<Step>) {
    && |states| == |steps| + 1
    && states[0] == Initial(|states[0].servers|)
    && forall k :: 0 <= k < |steps| ==> Next(states[k], steps[k], states[k + 1])
  }

  ghost predicate OwnTermVotes(states: seq<Cluster>, steps: seq<Step>) {
    |states| == |steps| + 1 && forall k :: 0 <= k < |steps| ==> OwnTermVote(states[k], steps[k])
  }

  ghost predicate AppendsReach(states: seq<Cluster>, steps: seq<Step>) {
    |states| == |steps| + 1 && forall k :: 0 <= k < |steps| ==> Reaches(states[k], steps[k])
  }

  ghost predicate AppendsInOrder(states: seq<Cluster>, steps: seq<Step>) {
    |states| == |steps| + 1 && forall k :: 0 <= k < |steps| ==> InOrder(states[k], steps[k])
  }
}
