/**
 * Log Matching (section 5.3 of the extended Raft paper), over every run with loss, delay, reordering and
 * crashes. The idea: an entry of term w at index i carries its whole prefix, which is that of the log of
 * the leader of w; and every server's log is a prefix of one leader's log, at least as long as that log
 * was at the election, because a request always carries the leader's whole suffix.
 */
module LogMatching {
  import opened KvTypes
  import opened RaftLog
  import opened RaftServer
  import opened Majority
  import opened Cluster
  import opened ElectionSafety

  ghost predicate IsPrefix(a: seq<LogRecord>, b: seq<LogRecord>) {
    |a| <= |b| && forall k :: 0 <= k < |a| ==> a[k] == b[k]
  }

  /** `log` and the log of the leader of `log[i].term` are the same up to and including i. */
  ghost predicate Backed(h: Leaders, log: seq<LogRecord>, i: nat)
    requires i < |log|
  {
    var w := log[i].term;
    w in h.leaderLog && i < |h.leaderLog[w]| && forall k :: 0 <= k <= i ==> log[k] == h.leaderLog[w][k]
  }

  ghost predicate LeaderLogOk(h: Leaders, t: nat)
    requires t in h.leaderLog && t in h.start
  {
    var log := h.leaderLog[t];
    && h.start[t] <= |log| && |log| > 0 && log[0] == DUMMY
    && TermsAscend(log)
    && (forall i :: 0 <= i < h.start[t] ==> log[i].term < t)
    && (forall i :: h.start[t] <= i < |log| ==> log[i].term == t)
    && (forall i: nat :: i < |log| ==> Backed(h, log, i))
  }

  ghost predicate LeaderLogsOk(h: Leaders) {
    && 0 in h.leaderLog && h.leaderLog[0] == [DUMMY] && 0 !in h.leaderOf
    && h.start.Keys == h.leaderLog.Keys
    && (forall t :: t in h.leaderLog ==> t == 0 || t in h.leaderOf)
    && (forall t :: t in h.leaderOf ==> t in h.leaderLog)
    && (forall t :: t in h.leaderLog ==> LeaderLogOk(h, t))
  }

  /** `log` is what some server held of the log of the leader of t. */
  ghost predicate TakenFrom(h: Leaders, t: nat, log: seq<LogRecord>) {
    t in h.leaderLog && t in h.start && h.start[t] <= |log| && |log| > 0 && IsPrefix(log, h.leaderLog[t])
  }

  ghost predicate ServerLogOk(h: Leaders, s: Server, source: nat) {
    && source <= s.currentTerm && TakenFrom(h, source, s.log.records)
    && (s.role == Leader ==>
          && source == s.currentTerm && s.log.records == h.leaderLog[source]
          && (forall p :: 0 <= p < |s.nextIndex| ==> 1 <= s.nextIndex[p] <= |s.log.records|)
          && (forall p :: 0 <= p < |s.matchIndex| ==> 0 <= s.matchIndex[p] < |s.log.records|))
  }

  ghost predicate ServerLogsOk(st: Cluster) {
    && |st.hist.source| == |st.servers|
    && forall i: nat :: i < |st.servers| ==> ServerLogOk(st.hist.lead, st.servers[i], st.hist.source[i])
  }

  /** A request holds the whole suffix of its leader's log, as it was when it was sent. */
  ghost predicate ArgsOk(h: Leaders, args: AppendArgs) {
    var t := args.term;
    && t in h.leaderOf && h.leaderOf[t] == args.leaderId
    && t in h.leaderLog && t in h.start
    && 0 <= args.prevLogIndex && h.start[t] <= Total(args) <= |h.leaderLog[t]|
    && args.prevLogTerm == h.leaderLog[t][args.prevLogIndex].term
    && args.entries == h.leaderLog[t][args.prevLogIndex + 1..Total(args)]
  }

  /** A rejection names an index at or before the probe, where the follower's log differs from the leader's. */
  ghost predicate ConflictOk(h: Leaders, args: AppendArgs, reply: AppendReply) {
    && 1 <= reply.conflictIndex <= args.prevLogIndex
    && var w := reply.conflictTerm;
       w != INVALID_TERM ==>
         && w != args.prevLogTerm && w in h.leaderLog
         && args.prevLogIndex < |h.leaderLog[w]| && h.leaderLog[w][args.prevLogIndex].term == w
  }

  ghost predicate AppendMessagesOk(st: Cluster) {
    && (forall m :: m in st.appendReqs ==>
          m.to < |st.servers| && m.to != m.args.leaderId && ArgsOk(st.hist.lead, m.args))
    && (forall m :: m in st.appendReps ==>
          && m.from < |st.servers| && m.from != m.args.leaderId && ArgsOk(st.hist.lead, m.args)
          && (!m.reply.success && m.reply.term <= m.args.term ==> ConflictOk(st.hist.lead, m.args, m.reply)))
  }

  ghost predicate LogInv(st: Cluster) {
    LeaderLogsOk(st.hist.lead) && ServerLogsOk(st) && AppendMessagesOk(st)
  }

  // ---------- what the invariant means ----------

  lemma BackedByLeader(h: Leaders, t: nat, log: seq<LogRecord>, i: nat)
    requires LeaderLogsOk(h) && TakenFrom(h, t, log) && i < |log|
    ensures Backed(h, log, i) && log[i].term <= t
  {
    assert Backed(h, h.leaderLog[t], i);
  }

  /** Logs that agree on a term at one index agree on everything up to it. */
  lemma SameTermSamePrefix(h: Leaders, t: nat, a: seq<LogRecord>, u: nat, b: seq<LogRecord>, i: nat)
    requires LeaderLogsOk(h) && TakenFrom(h, t, a) && TakenFrom(h, u, b)
    requires i < |a| && i < |b| && a[i].term == b[i].term
    ensures forall k :: 0 <= k <= i ==> a[k] == b[k]
  {
    BackedByLeader(h, t, a, i);
    BackedByLeader(h, u, b, i);
  }

  /** An accepted request makes the follower's log the leader's, as it was when the request was sent. */
  lemma AcceptCopiesLeader(h: Leaders, s: Server, source: nat, args: AppendArgs)
    requires LeaderLogsOk(h) && TakenFrom(h, source, s.log.records) && ArgsOk(h, args) && s.log.base == 0
    requires HandleAppend(s, args).1.success
    ensures HandleAppend(s, args).0.log.records == h.leaderLog[args.term][..Total(args)]
    ensures HandleAppend(s, args).0.log.base == 0
  {
    var prev := args.prevLogIndex;
    var leaderLog := h.leaderLog[args.term];
    hide LeaderLogsOk, TakenFrom, ScanFor;
    SameTermSamePrefix(h, source, s.log.records, args.term, leaderLog, prev);
    Spliced(s.log.records, leaderLog, args.entries, prev);
  }

  lemma Spliced(log: seq<LogRecord>, leaderLog: seq<LogRecord>, entries: seq<LogRecord>, prev: nat)
    requires prev < |log| && prev + 1 + |entries| <= |leaderLog| && entries == leaderLog[prev + 1..prev + 1 + |entries|]
    requires forall k :: 0 <= k <= prev ==> log[k] == leaderLog[k]
    ensures log[..prev + 1] + entries == leaderLog[..prev + 1 + |entries|]
  {
    assert log[..prev + 1] == leaderLog[..prev + 1];
  }

  // ---------- leader logs only grow ----------

  ghost predicate Grows(h: Leaders, h': Leaders) {
    && (forall t :: t in h.leaderOf ==> t in h'.leaderOf && h'.leaderOf[t] == h.leaderOf[t])
    && (forall t :: t in h.leaderLog ==> t in h'.leaderLog && IsPrefix(h.leaderLog[t], h'.leaderLog[t]))
    && (forall t :: t in h.start ==> t in h'.start && h'.start[t] == h.start[t])
  }

  lemma ArgsGrow(h: Leaders, h': Leaders, args: AppendArgs)
    requires ArgsOk(h, args) && Grows(h, h')
    ensures ArgsOk(h', args)
  {
    var t := args.term;
    assert h'.leaderLog[t][args.prevLogIndex + 1..Total(args)] == h.leaderLog[t][args.prevLogIndex + 1..Total(args)];
  }

  lemma MessagesGrow(st: Cluster, st': Cluster)
    requires AppendMessagesOk(st) && Grows(st.hist.lead, st'.hist.lead)
    requires |st'.servers| == |st.servers| && st'.appendReqs == st.appendReqs && st'.appendReps == st.appendReps
    ensures AppendMessagesOk(st')
  {
    hide ArgsOk;
    forall args | ArgsOk(st.hist.lead, args) ensures ArgsOk(st'.hist.lead, args) {
      ArgsGrow(st.hist.lead, st'.hist.lead, args);
    }
  }

  /** Only server i changed, and its log is still a leader's. */
  lemma KeepQuiet(st: Cluster, i: nat, s': Server, st': Cluster)
    requires LogInv(st) && i < |st.servers| && st'.servers == st.servers[i := s']
    requires st'.hist.lead == st.hist.lead && st'.hist.source == st.hist.source
    requires ServerLogOk(st.hist.lead, s', st.hist.source[i])
    requires st'.appendReqs == st.appendReqs && st'.appendReps == st.appendReps
    ensures LogInv(st')
  {
    hide LeaderLogsOk, ServerLogOk, ArgsOk, ConflictOk;
  }

  // ---------- the steps that change logs ----------

  // -- a new leader --

  /** The history once server i, with this log, leads term t. */
  ghost predicate Elected(h: Leaders, h': Leaders, i: nat, t: nat, log: seq<LogRecord>) {
    && t !in h.leaderOf && t >= 1
    && h' == Leaders(h.leaderOf[t := i], h.leaderLog[t := log], h.start[t := |log|])
  }

  lemma ElectedLogs(h: Leaders, h': Leaders, i: nat, t: nat, log: seq<LogRecord>, source: nat)
    requires LeaderLogsOk(h) && Elected(h, h', i, t, log) && TakenFrom(h, source, log) && source < t
    ensures LeaderLogsOk(h') && Grows(h, h')
  {
    ElectedGrows(h, h', i, t, log);
    hide LeaderLogOk, Grows, TakenFrom;
    ElectedDomain(h, h', i, t, log);
    forall u | u in h'.leaderLog ensures LeaderLogOk(h', u) {
      ElectedLog(h, h', i, t, log, source, u);
    }
    hide Elected;
  }

  lemma ElectedDomain(h: Leaders, h': Leaders, i: nat, t: nat, log: seq<LogRecord>)
    requires LeaderLogsOk(h) && Elected(h, h', i, t, log)
    ensures 0 in h'.leaderLog && h'.leaderLog[0] == [DUMMY] && 0 !in h'.leaderOf && h'.start.Keys == h'.leaderLog.Keys
    ensures (forall u :: u in h'.leaderLog ==> u == 0 || u in h'.leaderOf) && (forall u :: u in h'.leaderOf ==> u in h'.leaderLog)
  {
    hide LeaderLogOk;
  }

  lemma ElectedGrows(h: Leaders, h': Leaders, i: nat, t: nat, log: seq<LogRecord>)
    requires LeaderLogsOk(h) && Elected(h, h', i, t, log)
    ensures Grows(h, h')
  {
    hide LeaderLogOk;
  }

  lemma ElectedLog(h: Leaders, h': Leaders, i: nat, t: nat, log: seq<LogRecord>, source: nat, u: nat)
    requires LeaderLogsOk(h) && Elected(h, h', i, t, log) && TakenFrom(h, source, log) && source < t
    requires u in h'.leaderLog && u in h'.start
    ensures LeaderLogOk(h', u)
  {
    var l := h'.leaderLog[u];
    var from := if u == t then source else u;
    assert TakenFrom(h, from, l);
    forall k: nat | k < |l| ensures Backed(h', l, k) && l[k].term <= from {
      BackedByLeader(h, from, l, k);
    }
  }

  // -- a client's entry --

  /** The history once the leader i of term t has appended to its log. */
  ghost predicate Appended(h: Leaders, h': Leaders, t: nat, log: seq<LogRecord>) {
    && t in h.leaderLog && t in h.leaderOf && |log| == |h.leaderLog[t]| + 1 && IsPrefix(h.leaderLog[t], log)
    && log[|log| - 1].term == t
    && h' == h.(leaderLog := h.leaderLog[t := log])
  }

  lemma AppendedLogs(h: Leaders, h': Leaders, t: nat, log: seq<LogRecord>)
    requires LeaderLogsOk(h) && Appended(h, h', t, log)
    ensures LeaderLogsOk(h') && Grows(h, h')
  {
    hide LeaderLogOk;
    forall u | u in h'.leaderLog ensures LeaderLogOk(h', u) {
      AppendedLog(h, h', t, log, u);
    }
  }

  lemma AppendedLog(h: Leaders, h': Leaders, t: nat, log: seq<LogRecord>, u: nat)
    requires LeaderLogsOk(h) && Appended(h, h', t, log) && u in h'.leaderLog && u in h'.start
    ensures LeaderLogOk(h', u)
  {
    var l := h'.leaderLog[u];
    var before := h.leaderLog[u];
    assert LeaderLogOk(h, u);
    hide LeaderLogsOk;
    forall k: nat | k < |l| ensures Backed(h', l, k) && l[k].term <= u {
      AppendedBacked(h, h', t, log, u, k);
    }
    hide Backed;
  }

  lemma AppendedBacked(h: Leaders, h': Leaders, t: nat, log: seq<LogRecord>, u: nat, k: nat)
    requires LeaderLogsOk(h) && Appended(h, h', t, log) && u in h'.leaderLog && k < |h'.leaderLog[u]|
    ensures Backed(h', h'.leaderLog[u], k) && h'.leaderLog[u][k].term <= u
  {
    assert LeaderLogOk(h, u);
    if k < |h.leaderLog[u]| {
      BackedByLeader(h, u, h.leaderLog[u], k);
      assert h'.leaderLog[u][k] == h.leaderLog[u][k];
    }
  }

  // ---------- every step keeps the invariant ----------

  lemma TakenGrows(h: Leaders, h': Leaders, t: nat, log: seq<LogRecord>)
    requires TakenFrom(h, t, log) && Grows(h, h')
    ensures TakenFrom(h', t, log)
  {
  }

  /** The other servers when server i has become s', which now follows or leads `source`. */
  lemma OthersGrow(st: Cluster, i: nat, s': Server, source: nat, st': Cluster)
    requires ServerLogsOk(st) && i < |st.servers| && st'.servers == st.servers[i := s']
    requires st'.hist.source == st.hist.source[i := source] && ServerLogOk(st'.hist.lead, s', source)
    requires Grows(st.hist.lead, st'.hist.lead)
    requires forall j: nat :: j < |st.servers| && j != i && st.servers[j].role == Leader ==>
               st'.hist.lead.leaderLog[st.hist.source[j]] == st.hist.lead.leaderLog[st.hist.source[j]]
    ensures ServerLogsOk(st')
  {
    forall j: nat | j < |st'.servers|
      ensures ServerLogOk(st'.hist.lead, st'.servers[j], st'.hist.source[j])
    {
      if j != i {
        TakenGrows(st.hist.lead, st'.hist.lead, st.hist.source[j], st.servers[j].log.records);
      }
    }
  }

  // -- a vote reply --

  lemma VoteReplyLogs(s: Server, election: nat, reply: VoteReply)
    requires election in s.votes && s.log.base == 0 && |s.log.records| > 0
    ensures var s' := HandleVoteReply(s, election, reply);
            && s'.log == s.log && s'.currentTerm >= s.currentTerm
            && (s'.role == Leader ==>
                  && s'.currentTerm == s.currentTerm
                  && (s.role == Leader ==> s'.nextIndex == s.nextIndex && s'.matchIndex == s.matchIndex)
                  && (s.role != Leader ==>
                        && s'.nextIndex == seq(s.peers, _ => |s.log.records|)
                        && s'.matchIndex == seq(s.peers, _ => 0)))
  {
  }

  lemma WinsInFreshTerm(st: Cluster, m: VoteRepMsg)
    requires ElectionInv(st) && Enabled(st, VoteBack(m)) && OwnTermVote(st, VoteBack(m)) && Wins(st, m)
    ensures ServerOk(st.servers[m.to], m.to, |st.servers|) && Defined(st, VoteBack(m))
    ensures st.servers[m.to].role == Candidate && st.servers[m.to].currentTerm !in st.hist.lead.leaderOf
    ensures IsQuorum(NewCount(st, m), |st.servers|) && m.election == st.servers[m.to].currentTerm
    ensures forall v :: v in NewCount(st, m) ==> VotedFor(st.hist.ballots, v, m.election, m.to)
  {
    CountOnce(st, m);
    CountEffect(st, m);
    FreshLeader(st, m.to, NewCount(st, m));
  }

  lemma KeepWin(st: Cluster, m: VoteRepMsg)
    requires ElectionInv(st) && LogInv(st)
    requires Enabled(st, VoteBack(m)) && OwnTermVote(st, VoteBack(m)) && Wins(st, m)
    ensures Defined(st, VoteBack(m))
    ensures LogInv(DoVoteBack(st, m)) && Grows(st.hist.lead, DoVoteBack(st, m).hist.lead)
  {
    hide ElectionInv, LogInv, Grows;
    WinsInFreshTerm(st, m);
    var s, st' := st.servers[m.to], DoVoteBack(st, m);
    var s' := st'.servers[m.to];
    VoteReplyLogs(s, m.election, m.reply);
    hide HandleVoteReply;
    LogWin(st, m.to, s', st');
  }

  lemma LogWin(st: Cluster, i: nat, s': Server, st': Cluster)
    requires LogInv(st) && i < |st.servers| && st'.servers == st.servers[i := s']
    requires st.servers[i].currentTerm >= 1 && st.servers[i].currentTerm !in st.hist.lead.leaderOf
    requires s'.log == st.servers[i].log && s'.currentTerm == st.servers[i].currentTerm && s'.role == Leader
    requires forall p :: 0 <= p < |s'.nextIndex| ==> s'.nextIndex[p] == |s'.log.records|
    requires forall p :: 0 <= p < |s'.matchIndex| ==> s'.matchIndex[p] == 0
    requires Elected(st.hist.lead, st'.hist.lead, i, s'.currentTerm, s'.log.records)
    requires st'.hist.source == st.hist.source[i := s'.currentTerm]
    requires st'.appendReqs == st.appendReqs && st'.appendReps == st.appendReps
    ensures LogInv(st') && Grows(st.hist.lead, st'.hist.lead)
  {
    hide AppendMessagesOk, Grows, LeaderLogOk, TakenFrom;
    assert ServerLogOk(st.hist.lead, st.servers[i], st.hist.source[i]);
    SourceLed(st, i);
    ElectedLogs(st.hist.lead, st'.hist.lead, i, s'.currentTerm, s'.log.records, st.hist.source[i]);
    WinnerLog(st.hist.lead, st'.hist.lead, i, s', st.hist.source[i]);
    forall j: nat | j < |st.servers| && j != i && st.servers[j].role == Leader
      ensures var u := st.hist.source[j];
              u in st.hist.lead.leaderLog && u in st'.hist.lead.leaderLog && st'.hist.lead.leaderLog[u] == st.hist.lead.leaderLog[u]
    {
      SourceLed(st, j);
    }
    hide LeaderLogsOk, ServerLogsOk, ServerLogOk, Elected;
    MessagesGrow(st, st');
    OthersGrow(st, i, s', s'.currentTerm, st');
  }

  lemma SourceLed(st: Cluster, j: nat)
    requires LogInv(st) && j < |st.servers|
    ensures st.hist.source[j] in st.hist.lead.leaderLog
  {
    assert ServerLogOk(st.hist.lead, st.servers[j], st.hist.source[j]);
    hide AppendMessagesOk;
  }

  lemma WinnerLog(h: Leaders, h': Leaders, i: nat, s': Server, source: nat)
    requires LeaderLogsOk(h) && Elected(h, h', i, s'.currentTerm, s'.log.records) && TakenFrom(h, source, s'.log.records)
    requires s'.role == Leader
    requires forall p :: 0 <= p < |s'.nextIndex| ==> s'.nextIndex[p] == |s'.log.records|
    requires forall p :: 0 <= p < |s'.matchIndex| ==> s'.matchIndex[p] == 0
    ensures ServerLogOk(h', s', s'.currentTerm)
  {
    hide LeaderLogOk;
  }

  // -- a client's command --

  lemma ClientGrows(st: Cluster, i: nat, op: Op)
    requires LeaderLogsOk(st.hist.lead) && LeadersOk(st) && i < |st.servers| && st.servers[i].role == Leader
    requires st.servers[i].log.base == 0 && |st.servers| == |st.hist.source|
    requires ServerLogOk(st.hist.lead, st.servers[i], st.hist.source[i])
    ensures var st' := DoClient(st, i, op);
            && Appended(st.hist.lead, st'.hist.lead, st.servers[i].currentTerm, st'.servers[i].log.records)
            && LeaderLogsOk(st'.hist.lead) && Grows(st.hist.lead, st'.hist.lead)
            && ServerLogOk(st'.hist.lead, st'.servers[i], st.hist.source[i])
  {
    hide LeaderLogOk, Grows, ServerLogOk;
    var s, st' := st.servers[i], DoClient(st, i, op);
    ClientAppends(st, i, op);
    hide LeaderLogsOk, DoClient;
    AppendedLogs(st.hist.lead, st'.hist.lead, s.currentTerm, st'.servers[i].log.records);
  }

  lemma ClientAppends(st: Cluster, i: nat, op: Op)
    requires LeaderLogsOk(st.hist.lead) && LeadersOk(st) && i < |st.servers| && st.servers[i].role == Leader
    requires st.servers[i].log.base == 0 && |st.servers| == |st.hist.source|
    requires ServerLogOk(st.hist.lead, st.servers[i], st.hist.source[i])
    ensures var st' := DoClient(st, i, op);
            && Appended(st.hist.lead, st'.hist.lead, st.servers[i].currentTerm, st'.servers[i].log.records)
            && ServerLogOk(st'.hist.lead, st'.servers[i], st.hist.source[i])
  {
    hide LeaderLogOk;
  }

  lemma LogClient(st: Cluster, i: nat, op: Op)
    requires ServersOk(st) && LogInv(st) && LeadersOk(st) && i < |st.servers| && st.servers[i].role == Leader
    ensures LogInv(DoClient(st, i, op)) && Grows(st.hist.lead, DoClient(st, i, op).hist.lead)
  {
    hide LeaderLogsOk, AppendMessagesOk, Grows;
    var s, st' := st.servers[i], DoClient(st, i, op);
    ClientGrows(st, i, op);
    MessagesGrow(st, st');
    OthersGrow(st, i, st'.servers[i], st.hist.source[i], st');
  }

  // -- replication --

  lemma LogRequest(h: Leaders, s: Server, p: nat)
    requires s.role == Leader && s.log.base == 0 && ServerLogOk(h, s, s.currentTerm)
    requires p < |s.nextIndex| && s.currentTerm in h.leaderOf && h.leaderOf[s.currentTerm] == s.me
    ensures s.nextIndex[p] <= s.log.Size() && ReplicationMessage(s, p).SendAppend?
    ensures ArgsOk(h, ReplicationMessage(s, p).append)
    ensures Total(ReplicationMessage(s, p).append) == |s.log.records|
  {
  }

  lemma LogRequests(st: Cluster, i: nat, term: nat)
    requires LogInv(st) && LeadersOk(st) && i < |st.servers| && !ContextLost(st.servers[i], Leader, term)
    requires ServerOk(st.servers[i], i, |st.servers|)
    ensures CanReplicate(st.servers[i])
    ensures ServerLogOk(st.hist.lead, StartReplication(st.servers[i], term), st.hist.source[i])
    ensures forall m :: m in DoReplicate(st, i, term).appendReqs && m !in st.appendReqs ==>
              && m.to < |st.servers| && m.to != m.args.leaderId && ArgsOk(st.hist.lead, m.args)
              && m.args.term == term && Total(m.args) == |st.servers[i].log.records| && m.sentAt == st.clock
              && m.args.leaderCommit == st.servers[i].commitIndex
  {
    hide LeaderLogsOk, AppendMessagesOk;
    var s := st.servers[i];
    assert ServerLogOk(st.hist.lead, s, st.hist.source[i]);
    forall m | m in DoReplicate(st, i, term).appendReqs && m !in st.appendReqs
      ensures && m.to < |st.servers| && m.to != m.args.leaderId && ArgsOk(st.hist.lead, m.args)
              && m.args.term == term && Total(m.args) == |s.log.records| && m.sentAt == st.clock
              && m.args.leaderCommit == s.commitIndex
    {
      LogRequest(st.hist.lead, s, m.to);
    }
  }

  lemma LogReplicate(st: Cluster, i: nat, term: nat)
    requires ElectionInv(st) && LogInv(st) && i < |st.servers| && !ContextLost(st.servers[i], Leader, term)
    ensures CanReplicate(st.servers[i]) && LogInv(DoReplicate(st, i, term))
  {
    hide ServerOk, BallotsOk, CountedOk, VotesOk, VoteMessagesOk, LeadersOk;
    hide LeaderLogsOk, ServerLogOk, ArgsOk, ConflictOk, StartReplication, ReplicationMessage, CanReplicate;
    LogRequests(st, i, term);
  }

  // -- an append request --

  /** A rejection's reply tells the leader where to back up to. */
  lemma LogReject(h: Leaders, s: Server, source: nat, args: AppendArgs)
    requires LeaderLogsOk(h) && ServerLogOk(h, s, source) && ArgsOk(h, args) && s.log.base == 0
    requires !HandleAppend(s, args).1.success && args.term >= s.currentTerm
    ensures ConflictOk(h, args, HandleAppend(s, args).1)
  {
    var prev, log := args.prevLogIndex, s.log.records;
    if prev < |log| {
      RejectedTerm(h, s, source, args);
    } else {
      hide LeaderLogOk, ScanFor;
    }
  }

  lemma RejectedTerm(h: Leaders, s: Server, source: nat, args: AppendArgs)
    requires LeaderLogsOk(h) && ServerLogOk(h, s, source) && ArgsOk(h, args) && s.log.base == 0
    requires !HandleAppend(s, args).1.success && args.term >= s.currentTerm && args.prevLogIndex < |s.log.records|
    ensures ConflictOk(h, args, HandleAppend(s, args).1)
  {
    var prev, log := args.prevLogIndex, s.log.records;
    assert LeaderLogOk(h, source) && LeaderLogOk(h, args.term);
    assert TermsAscend(log);
    BackedByLeader(h, source, log, prev);
    hide LeaderLogsOk;
    ScanForIsExact(log, log[prev].term, 0);
  }

  lemma LogAppendServer(h: Leaders, s: Server, source: nat, args: AppendArgs)
    requires LeaderLogsOk(h) && ServerLogOk(h, s, source) && ArgsOk(h, args) && s.log.base == 0
    ensures var (s', reply) := HandleAppend(s, args);
            && ServerLogOk(h, s', if reply.success then args.term else source)
            && (reply.success ==> s'.log.records == h.leaderLog[args.term][..Total(args)] && s'.role == Follower
                                  && s'.currentTerm == args.term)
  {
    hide ScanFor, LeaderLogOk;
    if HandleAppend(s, args).1.success {
      AcceptCopiesLeader(h, s, source, args);
      AcceptRole(s, args);
      hide HandleAppend;
    }
  }

  lemma AcceptRole(s: Server, args: AppendArgs)
    requires Readable(s, args) && HandleAppend(s, args).1.success
    ensures HandleAppend(s, args).0.role == Follower && HandleAppend(s, args).0.currentTerm == args.term
  {
    hide ScanFor;
  }

  lemma LogAppend(st: Cluster, m: AppendReqMsg)
    requires ServersOk(st) && LogInv(st) && m in st.appendReqs && m.to < |st.servers|
    ensures Defined(st, Append(m)) && LogInv(DoAppend(st, m))
  {
    hide LeaderLogsOk, ServerLogOk, ConflictOk;
    var h, s := st.hist.lead, st.servers[m.to];
    LogAppendServer(h, s, st.hist.source[m.to], m.args);
    var st' := DoAppend(st, m);
    var reply := HandleAppend(s, m.args).1;
    if !reply.success && reply.term <= m.args.term {
      LogReject(h, s, st.hist.source[m.to], m.args);
    }
    hide HandleAppend;
  }

  // -- an append reply --

  lemma BackUpInRange(h: Leaders, s: Server, next: int, args: AppendArgs, reply: AppendReply)
    requires ConflictOk(h, args, reply) && next >= 1
    ensures 1 <= BackUp(s, next, reply) <= next
  {
  }

  lemma LogAdvance(s: Server)
    requires |s.matchIndex| > 0 && s.log.base == 0 <= s.commitIndex
    requires forall p :: 0 <= p < |s.matchIndex| ==> s.matchIndex[p] < s.log.Size()
    ensures AdvanceCommit(s) == s.(commitIndex := AdvanceCommit(s).commitIndex)
    ensures AdvanceCommit(s).commitIndex >= s.commitIndex
  {
    hide MajorityIndex;
  }

  lemma LogAppendReply(h: Leaders, s: Server, source: nat, m: AppendRepMsg)
    requires ServerOk(s, s.me, s.peers) && ServerLogOk(h, s, source) && ArgsOk(h, m.args) && m.from < s.peers
    requires !m.reply.success && m.reply.term <= m.args.term ==> ConflictOk(h, m.args, m.reply)
    ensures CanHandleReply(s, m) && ServerLogOk(h, HandleAppendReply(s, m.from, m.args, m.reply), source)
  {
    hide BackUp, MajorityIndex, AdvanceCommit, Persisted;
    var args, reply := m.args, m.reply;
    if AppendReplyCounts(s, args, reply) {
      if reply.success {
        var matched := args.prevLogIndex + |args.entries|;
        LogAdvance(s.(matchIndex := s.matchIndex[m.from := matched], nextIndex := s.nextIndex[m.from := matched + 1]));
      } else {
        BackUpInRange(h, s, s.nextIndex[m.from], args, reply);
      }
    }
  }

  lemma LogAppendBack(st: Cluster, m: AppendRepMsg)
    requires ServersOk(st) && LogInv(st) && m in st.appendReps && m.args.leaderId < |st.servers|
    ensures CanHandleReply(st.servers[m.args.leaderId], m) && LogInv(DoAppendBack(st, m))
  {
    hide LeaderLogsOk, ServerLogOk, ConflictOk, ArgsOk;
    var i := m.args.leaderId;
    LogAppendReply(st.hist.lead, st.servers[i], st.hist.source[i], m);
    hide CanHandleReply, HandleAppendReply;
    KeepQuiet(st, i, HandleAppendReply(st.servers[i], m.from, m.args, m.reply), DoAppendBack(st, m));
  }

  // -- the steps that change no log --

  /** The log and, for one that still leads, the bookkeeping are as they were. */
  predicate LogUnchanged(s: Server, s': Server) {
    && s'.log.records == s.log.records && s'.currentTerm >= s.currentTerm
    && (s'.role == Leader ==>
          s.role == Leader && s'.currentTerm == s.currentTerm &&
          s'.nextIndex == s.nextIndex && s'.matchIndex == s.matchIndex)
  }

  predicate IsQuiet(st: Cluster, step: Step)
    requires Enabled(st, step)
  {
    match step
    case VoteBack(m) => !Wins(st, m)
    case Client(i, _) => st.servers[i].role != Leader
    case Replicate(i, term) => ContextLost(st.servers[i], Leader, term)
    case Append(_) => false
    case AppendBack(_) => false
    case _ => true
  }

  /** The actor of a quiet step, and the rest of the cluster. */
  ghost predicate StaysQuiet(st: Cluster, i: nat, st': Cluster) {
    && i < |st.servers| == |st'.servers|
    && LogUnchanged(st.servers[i], st'.servers[i])
    && st'.servers == st.servers[i := st'.servers[i]]
    && st'.hist.lead == st.hist.lead && st'.hist.source == st.hist.source
    && st'.appendReqs == st.appendReqs && st'.appendReps == st.appendReps && st'.clock == st.clock
    && st'.hist.acked == st.hist.acked && st'.hist.lastSeen == st.hist.lastSeen
  }

  lemma QuietVoteBack(st: Cluster, m: VoteRepMsg)
    requires Enabled(st, VoteBack(m)) && Defined(st, VoteBack(m)) && !Wins(st, m)
    requires ServerOk(st.servers[m.to], m.to, |st.servers|)
    ensures StaysQuiet(st, m.to, DoVoteBack(st, m))
  {
    VoteReplyLogs(st.servers[m.to], m.election, m.reply);
    hide HandleVoteReply;
  }

  lemma QuietVote(st: Cluster, m: VoteReqMsg)
    requires Enabled(st, Vote(m)) && Defined(st, Vote(m)) && ServerOk(st.servers[m.to], m.to, |st.servers|)
    ensures StaysQuiet(st, m.to, DoVote(st, m))
  {
    hide IsMoreUpToDate;
  }

  lemma QuietServer(st: Cluster, step: Step)
    requires Enabled(st, step) && Defined(st, step) && IsQuiet(st, step)
    requires ServerOk(st.servers[Actor(step)], Actor(step), |st.servers|)
    ensures StaysQuiet(st, Actor(step), Apply(st, step))
  {
    if step.VoteBack? {
      hide StaysQuiet;
      QuietVoteBack(st, step.voteRep);
    } else if step.Vote? {
      hide StaysQuiet;
      QuietVote(st, step.voteReq);
    }
  }

  lemma QuietServerLog(h: Leaders, s: Server, s': Server, source: nat)
    requires ServerLogOk(h, s, source) && LogUnchanged(s, s')
    ensures ServerLogOk(h, s', source)
  {
  }

  lemma LogQuiet(st: Cluster, step: Step)
    requires ServersOk(st) && LogInv(st) && Enabled(st, step) && Defined(st, step) && IsQuiet(st, step)
    ensures LogInv(Apply(st, step)) && Apply(st, step).hist.lead == st.hist.lead
  {
    hide LogInv, ServerLogOk, LogUnchanged, ServerOk, Apply, IsQuiet, Enabled, Defined;
    var i, st' := Actor(step), Apply(st, step);
    ActorExists(st, step);
    QuietServer(st, step);
    ActorLog(st, i);
    QuietServerLog(st.hist.lead, st.servers[i], st'.servers[i], st.hist.source[i]);
    KeepQuiet(st, i, st'.servers[i], st');
  }

  lemma ActorExists(st: Cluster, step: Step)
    requires Enabled(st, step)
    ensures Actor(step) < |st.servers|
  {
  }

  lemma ActorLog(st: Cluster, i: nat)
    requires LogInv(st) && i < |st.servers|
    ensures |st.hist.source| == |st.servers| && ServerLogOk(st.hist.lead, st.servers[i], st.hist.source[i])
  {
  }

  lemma KeepLog(st: Cluster, step: Step, st': Cluster)
    requires ElectionInv(st) && LogInv(st) && Next(st, step, st') && OwnTermVote(st, step)
    ensures LogInv(st') && Grows(st.hist.lead, st'.hist.lead)
  {
    hide LogInv, Grows, BallotsOk, CountedOk, VotesOk, VoteMessagesOk;
    if IsQuiet(st, step) {
      LogQuiet(st, step);
      SameGrows(st.hist.lead);
    } else {
      match step
      case VoteBack(m) => KeepWin(st, m);
      case Client(i, op) => LogClient(st, i, op);
      case Replicate(i, term) => LogReplicate(st, i, term); SameGrows(st.hist.lead);
      case Append(m) => LogAppend(st, m); SameGrows(st.hist.lead);
      case AppendBack(m) => LogAppendBack(st, m); SameGrows(st.hist.lead);
      case _ =>
    }
  }

  lemma SameGrows(h: Leaders)
    ensures Grows(h, h)
  {
  }

  // ---------- whole runs ----------

  lemma InitialLog(n: nat)
    ensures LogInv(Initial(n))
  {
    var st := Initial(n);
    assert LeaderLogOk(st.hist.lead, 0);
  }

  lemma {:induction false} LogInvHolds(states: seq<Cluster>, steps: seq<Step>, k: nat)
    requires Run(states, steps) && OwnTermVotes(states, steps) && k < |states|
    ensures ElectionInv(states[k]) && LogInv(states[k])
  {
    hide ElectionInv, LogInv, OwnTermVote;
    ElectionInvHolds(states, steps, k);
    if k == 0 {
      InitialLog(|states[0].servers|);
    } else {
      LogInvHolds(states, steps, k - 1);
      assert Next(states[k - 1], steps[k - 1], states[k - 1 + 1]);
      hide Next;
      KeepLog(states[k - 1], steps[k - 1], states[k]);
    }
  }

  lemma GrowsTrans(a: Leaders, b: Leaders, c: Leaders)
    requires Grows(a, b) && Grows(b, c)
    ensures Grows(a, c)
  {
  }

  lemma {:induction false} GrowsLong(states: seq<Cluster>, steps: seq<Step>, a: nat, b: nat)
    requires Run(states, steps) && OwnTermVotes(states, steps) && a <= b < |states|
    ensures Grows(states[a].hist.lead, states[b].hist.lead)
  {
    hide ElectionInv, LogInv, OwnTermVote, Grows, Next;
    if a == b {
      SameGrows(states[a].hist.lead);
    } else {
      GrowsLong(states, steps, a, b - 1);
      LogInvHolds(states, steps, b - 1);
      assert Next(states[b - 1], steps[b - 1], states[b - 1 + 1]);
      KeepLog(states[b - 1], steps[b - 1], states[b]);
      GrowsTrans(states[a].hist.lead, states[b - 1].hist.lead, states[b].hist.lead);
    }
  }

  /** A log that some server held at some time, as a part of the leader logs at the end. */
  lemma HeldLog(states: seq<Cluster>, steps: seq<Step>, a: nat, i: nat) returns (t: nat)
    requires Run(states, steps) && OwnTermVotes(states, steps) && a < |states| && i < |states[a].servers|
    ensures TakenFrom(states[|states| - 1].hist.lead, t, states[a].servers[i].log.records)
  {
    hide ElectionInv, Grows, OwnTermVote, Next;
    LogInvHolds(states, steps, a);
    ActorLog(states[a], i);
    GrowsLong(states, steps, a, |states| - 1);
    t := states[a].hist.source[i];
    TakenGrows(states[a].hist.lead, states[|states| - 1].hist.lead, t, states[a].servers[i].log.records);
  }

  /**
   * Log Matching: if two logs, of any servers at any times of a run, hold an entry of the same term at
   * the same index, then they agree on every index up to it.
   */
  lemma LogMatching(states: seq<Cluster>, steps: seq<Step>, a: nat, i: nat, b: nat, j: nat, idx: nat)
    requires Run(states, steps) && OwnTermVotes(states, steps) && a < |states| && b < |states|
    requires i < |states[a].servers| && idx < |states[a].servers[i].log.records|
    requires j < |states[b].servers| && idx < |states[b].servers[j].log.records|
    requires states[a].servers[i].log.records[idx].term == states[b].servers[j].log.records[idx].term
    ensures forall k :: 0 <= k <= idx ==>
              states[a].servers[i].log.records[k] == states[b].servers[j].log.records[k]
  {
    hide LeaderLogsOk, ServerLogsOk, AppendMessagesOk, ElectionInv, TakenFrom, OwnTermVote, Next;
    var last := |states| - 1;
    LogInvHolds(states, steps, last);
    var t := HeldLog(states, steps, a, i);
    var u := HeldLog(states, steps, b, j);
    SameTermSamePrefix(states[last].hist.lead, t, states[a].servers[i].log.records,
                       u, states[b].servers[j].log.records, idx);
  }

  // ---------- fast backup ----------

  lemma FirstConflictBeforeProbe(h: Leaders, log: seq<LogRecord>, t: nat, args: AppendArgs, reply: AppendReply)
    requires LeaderLogsOk(h) && t in h.leaderLog && log == h.leaderLog[t] && args.term == t
    requires ArgsOk(h, args) && ConflictOk(h, args, reply) && reply.conflictTerm != INVALID_TERM
    ensures ScanFor(log, reply.conflictTerm, 0) <= args.prevLogIndex
  {
    var w := reply.conflictTerm;
    assert LeaderLogOk(h, t);
    ScanForIsExact(log, w, 0);
    var f := ScanFor(log, w, 0);
    assert f < |log| ==> Backed(h, log, f);
  }

  /**
   * Fast backup converges: a rejection that answers the current probe lowers nextIndex, and leaves it at
   * least 1, so a leader probes a follower fewer times than its log has entries.
   */
  lemma FastBackup(states: seq<Cluster>, steps: seq<Step>, k: nat, m: AppendRepMsg)
    requires Run(states, steps) && OwnTermVotes(states, steps) && k < |states|
    requires m in states[k].appendReps && m.args.leaderId < |states[k].servers|
    requires AppendReplyCounts(states[k].servers[m.args.leaderId], m.args, m.reply) && !m.reply.success
    requires var s := states[k].servers[m.args.leaderId];
             m.from < |s.nextIndex| && m.args.prevLogIndex == s.nextIndex[m.from] - 1
    ensures CanHandleReply(states[k].servers[m.args.leaderId], m)
    ensures var s := states[k].servers[m.args.leaderId];
            var s' := DoAppendBack(states[k], m).servers[m.args.leaderId];
            && 1 <= s'.nextIndex[m.from] < s.nextIndex[m.from]
            && s' == s.(nextIndex := s.nextIndex[m.from := s'.nextIndex[m.from]])
  {
    hide BallotsOk, CountedOk, VotesOk, VoteMessagesOk, LeadersOk, LeaderLogsOk, Next, OwnTermVote, MajorityIndex;
    var st := states[k];
    LogInvHolds(states, steps, k);
    LogAppendBack(st, m);
    var s := st.servers[m.args.leaderId];
    ActorLog(st, m.args.leaderId);
    BackUpInRange(st.hist.lead, s, s.nextIndex[m.from], m.args, m.reply);
    if m.reply.conflictTerm != INVALID_TERM {
      FirstConflictBeforeProbe(st.hist.lead, s.log.records, s.currentTerm, m.args, m.reply);
    }
  }

  // ---------- exactly when the truncation loses nothing ----------

  /** What was taken over in a term is a part of that leader's log. */
  ghost predicate TookInLog(acked: map<(nat, nat), nat>, h: Leaders) {
    forall q, t :: (q, t) in acked ==> t in h.leaderLog && acked[(q, t)] <= |h.leaderLog[t]|
  }

  lemma TookGrows(acked: map<(nat, nat), nat>, h: Leaders, acked': map<(nat, nat), nat>, h': Leaders, q: nat, t: nat)
    requires TookInLog(acked, h) && Grows(h, h')
    requires acked' == acked || ((q, t) in acked' && acked' == acked[(q, t) := acked'[(q, t)]] && t in h'.leaderLog && acked'[(q, t)] <= |h'.leaderLog[t]|)
    ensures TookInLog(acked', h')
  {
  }

  lemma TookAppend(st: Cluster, m: AppendReqMsg)
    requires LogInv(st) && TookInLog(st.hist.acked, st.hist.lead) && ServersOk(st)
    requires m in st.appendReqs && m.to < |st.servers| == |st.hist.source|
    ensures Readable(st.servers[m.to], m.args)
    ensures TookInLog(DoAppend(st, m).hist.acked, st.hist.lead)
  {
    hide LeaderLogsOk, ConflictOk, Persisted, TakenFrom;
    ActorLog(st, m.to);
    LogAppendServer(st.hist.lead, st.servers[m.to], st.hist.source[m.to], m.args);
    hide HandleAppend;
  }

  lemma TookChanges(st: Cluster, step: Step, st': Cluster)
    requires LogInv(st) && LogInv(st') && Next(st, step, st') && Grows(st.hist.lead, st'.hist.lead)
    requires ServersOk(st) && LeadersOk(st) && TookInLog(st.hist.acked, st.hist.lead)
    requires !IsQuiet(st, step) && !step.Append?
    ensures TookInLog(st'.hist.acked, st'.hist.lead)
  {
    hide LogInv, Grows, ServerOk;
    var s := st.servers[Actor(step)];
    match step
    case VoteBack(m) => TookGrows(st.hist.acked, st.hist.lead, st'.hist.acked, st'.hist.lead, m.to, s.currentTerm);
    case Client(i, op) => TookGrows(st.hist.acked, st.hist.lead, st'.hist.acked, st'.hist.lead, i, s.currentTerm);
    case Replicate(_, _) => TookGrows(st.hist.acked, st.hist.lead, st'.hist.acked, st'.hist.lead, 0, 0);
    case AppendBack(_) => TookGrows(st.hist.acked, st.hist.lead, st'.hist.acked, st'.hist.lead, 0, 0);
    case _ =>
  }

  lemma {:induction false} TookInLogHolds(states: seq<Cluster>, steps: seq<Step>, k: nat)
    requires Run(states, steps) && OwnTermVotes(states, steps) && k < |states|
    ensures TookInLog(states[k].hist.acked, states[k].hist.lead)
  {
    hide LogInv, OwnTermVote, Grows, TookInLog, BallotsOk, CountedOk, VotesOk, VoteMessagesOk, ServerOk, LeadersOk, IsQuiet, Next;
    if k == 0 {
      TookAtFirst(|states[0].servers|);
    } else {
      var st, step, st' := states[k - 1], steps[k - 1], states[k];
      TookInLogHolds(states, steps, k - 1);
      LogInvHolds(states, steps, k - 1);
      assert Next(states[k - 1], steps[k - 1], states[k - 1 + 1]);
      KeepLog(st, step, st');
      KeepTook(st, step, st');
    }
  }

  lemma TookAtFirst(n: nat)
    ensures TookInLog(Initial(n).hist.acked, Initial(n).hist.lead)
  {
  }

  lemma KeepTook(st: Cluster, step: Step, st': Cluster)
    requires LogInv(st) && LogInv(st') && Next(st, step, st') && Grows(st.hist.lead, st'.hist.lead)
    requires ServersOk(st) && LeadersOk(st) && TookInLog(st.hist.acked, st.hist.lead)
    ensures TookInLog(st'.hist.acked, st'.hist.lead)
  {
    hide LogInv, Grows, TookInLog, LeadersOk, IsQuiet, Apply, Enabled, Defined;
    if IsQuiet(st, step) {
      ActorExists(st, step);
      assert ServerOk(st.servers[Actor(step)], Actor(step), |st.servers|);
      QuietServer(st, step);
    } else if step.Append? {
      AppendIsTaken(st, step.appendReq, st');
    } else {
      TookChanges(st, step, st');
    }
  }

  lemma AppendIsTaken(st: Cluster, m: AppendReqMsg, st': Cluster)
    requires LogInv(st) && ServersOk(st) && TookInLog(st.hist.acked, st.hist.lead) && Next(st, Append(m), st')
    ensures TookInLog(st'.hist.acked, st'.hist.lead)
  {
    hide LogInv, TookInLog, ServersOk, HandleAppend;
    TookAppend(st, m);
  }

  /**
   * AppendEntries cuts the log behind PrevLogIndex whether or not the entries there conflict. In whatever
   * order requests arrive, an accepted one leaves the follower with all that it took over from the leader of
   * that term if and only if it reaches at least as far.
   */
  lemma TruncationExact(states: seq<Cluster>, steps: seq<Step>, k: nat, m: AppendReqMsg)
    requires Run(states, steps) && OwnTermVotes(states, steps) && k < |states|
    requires m in states[k].appendReqs && m.to < |states[k].servers|
    requires Readable(states[k].servers[m.to], m.args)
    requires HandleAppend(states[k].servers[m.to], m.args).1.success
    requires (m.to, m.args.term) in states[k].hist.acked
    ensures var took := states[k].hist.acked[(m.to, m.args.term)];
            && m.args.term in states[k].hist.lead.leaderLog && took <= |states[k].hist.lead.leaderLog[m.args.term]|
            && (IsPrefix(states[k].hist.lead.leaderLog[m.args.term][..took], HandleAppend(states[k].servers[m.to], m.args).0.log.records)
                <==> took <= Total(m.args))
  {
    hide BallotsOk, CountedOk, VotesOk, VoteMessagesOk, LeadersOk, LeaderLogsOk, ConflictOk, Next, OwnTermVote, Persisted;
    LogInvHolds(states, steps, k);
    TookInLogHolds(states, steps, k);
    var st := states[k];
    ActorLog(st, m.to);
    LogAppendServer(st.hist.lead, st.servers[m.to], st.hist.source[m.to], m.args);
    hide HandleAppend;
  }
}
