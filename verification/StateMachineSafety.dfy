/**
 * State Machine Safety (section 5.4.3 of the extended Raft paper), over every run with loss, delay and
 * crashes whose counted votes are of the candidate's term and whose append requests of one term are
 * accepted in the order sent: servers never disagree on a committed entry, and none ever applies, at one
 * index, anything but what every other applies there.
 */
module StateMachineSafety {
  import opened FiniteSets
  import opened KvTypes
  import opened RaftLog
  import opened RaftServer
  import opened Majority
  import opened Cluster
  import opened ElectionSafety
  import opened LogMatching
  import opened LeaderCompleteness

  // ---------- the invariant ----------

  /** What is chosen in a term up to `bound` fixes `log` up to index c. */
  ghost predicate Fixes(st: Cluster, t: nat, k: int, log: seq<LogRecord>, c: int, bound: nat) {
    t <= bound && c <= k && Chosen(st, t, k) && HoldsUpto(log, st.hist.lead.leaderLog[t], c)
  }

  ghost predicate FixedUpto(st: Cluster, log: seq<LogRecord>, c: int, bound: nat) {
    0 <= c < |log| && (c == 0 || exists t: nat, k: int :: Fixes(st, t, k, log, c, bound))
  }

  /** Every server's log is fixed as far as the server has committed it. */
  ghost predicate CommitsOk(st: Cluster) {
    && |st.hist.source| == |st.servers|
    && forall i: nat :: i < |st.servers| ==>
         FixedUpto(st, st.servers[i].log.records, st.servers[i].commitIndex, st.hist.source[i])
  }

  /** A request's commit index lies inside the log it makes of the follower's, and is fixed there. */
  ghost predicate CommitMessagesOk(st: Cluster) {
    forall m :: m in st.appendReqs ==>
      && m.args.term in st.hist.lead.leaderLog && 0 <= m.args.leaderCommit < Total(m.args)
      && FixedUpto(st, st.hist.lead.leaderLog[m.args.term], m.args.leaderCommit, m.args.term)
  }

  ghost predicate MatchOk(acked: Acks, s: Server) {
    s.role == Leader ==>
      forall p: nat :: p < |s.matchIndex| && s.matchIndex[p] > 0 ==> Took(acked, p, s.currentTerm, s.matchIndex[p])
  }

  /** A match index above 0 is backed by what that peer took over from this leader, in this term. */
  ghost predicate MatchesOk(st: Cluster) {
    && (forall i: nat :: i < |st.servers| ==> MatchOk(st.hist.acked, st.servers[i]))
    && (forall m :: m in st.appendReps && m.reply.success ==>
          Took(st.hist.acked, m.from, m.args.term, Total(m.args) - 1))
  }

  /** The apply loop holds a piece of the committed log. */
  predicate BatchOk(s: Server) {
    && 0 <= s.lastApplied <= s.commitIndex < |s.log.records|
    && (s.batch.Some? ==>
          && s.delivered <= |s.batch.value|
          && s.lastApplied + |s.batch.value| <= s.commitIndex
          && s.batch.value == s.log.records[s.lastApplied + 1..s.lastApplied + 1 + |s.batch.value|])
  }

  ghost predicate FixesAt(st: Cluster, t: nat, k: int, idx: int, rec: LogRecord) {
    1 <= idx <= k && Chosen(st, t, k) && st.hist.lead.leaderLog[t][idx] == rec
  }

  ghost predicate FixedAt(st: Cluster, idx: int, rec: LogRecord) {
    exists t: nat, k: int :: FixesAt(st, t, k, idx, rec)
  }

  ghost predicate AppliesOk(st: Cluster) {
    && (forall i: nat :: i < |st.servers| ==> BatchOk(st.servers[i]))
    && (forall idx, rec :: (idx, rec) in st.hist.applied ==> FixedAt(st, idx, rec))
  }

  ghost predicate CommitInv(st: Cluster) {
    CommitsOk(st) && CommitMessagesOk(st) && MatchesOk(st) && AppliesOk(st)
  }

  // ---------- what is chosen is unique ----------

  lemma ChosenAgree(st: Cluster, t: nat, k: int, u: nat, l: int, idx: int)
    requires LeaderLogsOk(st.hist.lead) && LeadersSafe(st) && Chosen(st, t, k) && Chosen(st, u, l)
    requires 0 <= idx <= k && idx <= l
    ensures st.hist.lead.leaderLog[t][idx] == st.hist.lead.leaderLog[u][idx]
  {
    hide LeaderLogOk;
    if t < u {
      ChosenCanBe(st, t, k);
      LeadersSafeAt(st, t, u, k);
    } else if u < t {
      ChosenCanBe(st, u, l);
      LeadersSafeAt(st, u, t, l);
    }
  }

  lemma FixedAgree(st: Cluster, a: seq<LogRecord>, c: int, bound: nat, b: seq<LogRecord>, d: int, bound': nat, idx: int)
    requires LeaderLogsOk(st.hist.lead) && LeadersSafe(st)
    requires FixedUpto(st, a, c, bound) && FixedUpto(st, b, d, bound') && 1 <= idx <= c && idx <= d
    ensures a[idx] == b[idx]
  {
    hide LeaderLogsOk, LeadersSafe;
    var t: nat, k: int :| Fixes(st, t, k, a, c, bound);
    var u: nat, l: int :| Fixes(st, u, l, b, d, bound');
    ChosenAgree(st, t, k, u, l, idx);
  }

  lemma FixedAtAgree(st: Cluster, idx: int, rec: LogRecord, rec': LogRecord)
    requires LeaderLogsOk(st.hist.lead) && LeadersSafe(st) && FixedAt(st, idx, rec) && FixedAt(st, idx, rec')
    ensures rec == rec'
  {
    hide LeaderLogsOk, LeadersSafe;
    var t: nat, k: int :| FixesAt(st, t, k, idx, rec);
    var u: nat, l: int :| FixesAt(st, u, l, idx, rec');
    ChosenAgree(st, t, k, u, l, idx);
  }

  // ---------- what is fixed stays ----------

  lemma FixedStays(st: Cluster, st': Cluster, log: seq<LogRecord>, c: int, bound: nat, log': seq<LogRecord>, bound': nat)
    requires Advances(st, st') && FixedUpto(st, log, c, bound) && HoldsUpto(log', log, c) && bound <= bound'
    ensures FixedUpto(st', log', c, bound')
  {
    if c > 0 {
      var t: nat, k: int :| Fixes(st, t, k, log, c, bound);
      ChosenStays(st, st', t, k);
      assert Fixes(st', t, k, log', c, bound');
    }
  }

  lemma FixedAtStays(st: Cluster, st': Cluster, idx: int, rec: LogRecord)
    requires Advances(st, st') && FixedAt(st, idx, rec)
    ensures FixedAt(st', idx, rec)
  {
    var t: nat, k: int :| FixesAt(st, t, k, idx, rec);
    ChosenStays(st, st', t, k);
    assert FixesAt(st', t, k, idx, rec);
  }

  lemma FixedToAt(st: Cluster, log: seq<LogRecord>, c: int, bound: nat, idx: int)
    requires FixedUpto(st, log, c, bound) && 1 <= idx <= c
    ensures FixedAt(st, idx, log[idx])
  {
    var t: nat, k: int :| Fixes(st, t, k, log, c, bound);
    assert FixesAt(st, t, k, idx, log[idx]);
  }

  lemma CommitMessagesStay(st: Cluster, st': Cluster)
    requires CommitMessagesOk(st) && Advances(st, st')
    requires forall m :: m in st'.appendReqs && m !in st.appendReqs ==>
               && m.args.term in st'.hist.lead.leaderLog && 0 <= m.args.leaderCommit < Total(m.args)
               && FixedUpto(st', st'.hist.lead.leaderLog[m.args.term], m.args.leaderCommit, m.args.term)
    ensures CommitMessagesOk(st')
  {
    hide FixedUpto;
    forall m | m in st.appendReqs
      ensures && m.args.term in st'.hist.lead.leaderLog
              && FixedUpto(st', st'.hist.lead.leaderLog[m.args.term], m.args.leaderCommit, m.args.term)
    {
      FixedInRange(st, st.hist.lead.leaderLog[m.args.term], m.args.leaderCommit, m.args.term);
      FixedStays(st, st', st.hist.lead.leaderLog[m.args.term], m.args.leaderCommit, m.args.term,
                 st'.hist.lead.leaderLog[m.args.term], m.args.term);
    }
  }

  lemma FixedInRange(st: Cluster, log: seq<LogRecord>, c: int, bound: nat)
    requires FixedUpto(st, log, c, bound)
    ensures 0 <= c < |log|
  {
  }

  lemma AppliedStays(st: Cluster, st': Cluster)
    requires Advances(st, st') && (forall idx, rec :: (idx, rec) in st.hist.applied ==> FixedAt(st, idx, rec))
    ensures forall idx, rec :: (idx, rec) in st.hist.applied ==> FixedAt(st', idx, rec)
  {
    hide Advances, FixedAt;
    forall idx, rec | (idx, rec) in st.hist.applied ensures FixedAt(st', idx, rec) {
      FixedAtStays(st, st', idx, rec);
    }
  }

  // ---------- one server at a time ----------

  /** Only server i changed, and what is new about it, its messages and its deliveries is in order. */
  ghost predicate OnlyServer(st: Cluster, i: nat, s': Server, st': Cluster) {
    && i < |st.servers| == |st.hist.source| && st'.servers == st.servers[i := s']
    && |st'.hist.source| == |st.hist.source| && st.hist.source[i] <= st'.hist.source[i]
    && st'.hist.source == st.hist.source[i := st'.hist.source[i]]
    && FixedUpto(st', s'.log.records, s'.commitIndex, st'.hist.source[i])
    && MatchOk(st'.hist.acked, s') && BatchOk(s')
  }

  lemma CommitsStay(st: Cluster, i: nat, s': Server, st': Cluster)
    requires OnlyServer(st, i, s', st') && Advances(st, st') && CommitsOk(st)
    ensures CommitsOk(st')
  {
    hide FixedUpto, Advances, MatchOk, BatchOk;
    forall j: nat | j < |st'.servers|
      ensures FixedUpto(st', st'.servers[j].log.records, st'.servers[j].commitIndex, st'.hist.source[j])
    {
      if j != i {
        var log, c := st.servers[j].log.records, st.servers[j].commitIndex;
        FixedInRange(st, log, c, st.hist.source[j]);
        FixedStays(st, st', log, c, st.hist.source[j], log, st.hist.source[j]);
      }
    }
  }

  lemma TookStays(st: Cluster, st': Cluster, q: nat, t: nat, k: int)
    requires Advances(st, st') && Took(st.hist.acked, q, t, k)
    ensures Took(st'.hist.acked, q, t, k)
  {
  }

  lemma MatchStays(st: Cluster, st': Cluster, s: Server)
    requires Advances(st, st') && MatchOk(st.hist.acked, s)
    ensures MatchOk(st'.hist.acked, s)
  {
  }

  lemma MatchesStay(st: Cluster, i: nat, s': Server, st': Cluster)
    requires OnlyServer(st, i, s', st') && Advances(st, st') && MatchesOk(st)
    requires forall m :: m in st'.appendReps && m !in st.appendReps && m.reply.success ==>
               Took(st'.hist.acked, m.from, m.args.term, Total(m.args) - 1)
    ensures MatchesOk(st')
  {
    hide FixedUpto, Advances, MatchOk, BatchOk;
    forall j: nat | j < |st'.servers| ensures MatchOk(st'.hist.acked, st'.servers[j]) {
      if j != i {
        MatchStays(st, st', st.servers[j]);
      }
    }
    forall m | m in st.appendReps && m.reply.success
      ensures Took(st'.hist.acked, m.from, m.args.term, Total(m.args) - 1)
    {
      TookStays(st, st', m.from, m.args.term, Total(m.args) - 1);
    }
  }

  lemma AppliesStay(st: Cluster, i: nat, s': Server, st': Cluster)
    requires OnlyServer(st, i, s', st') && Advances(st, st') && AppliesOk(st)
    requires forall idx, rec :: (idx, rec) in st'.hist.applied && (idx, rec) !in st.hist.applied ==> FixedAt(st', idx, rec)
    ensures AppliesOk(st')
  {
    hide FixedUpto, Advances, MatchOk, BatchOk, FixedAt;
    AppliedStays(st, st');
  }

  /** The step sent no request, no reply and delivered nothing. */
  lemma KeepCommitServer(st: Cluster, i: nat, s': Server, st': Cluster)
    requires CommitInv(st) && OnlyServer(st, i, s', st') && Advances(st, st')
    requires st'.appendReqs == st.appendReqs && st'.appendReps == st.appendReps
    requires forall idx, rec :: (idx, rec) in st'.hist.applied && (idx, rec) !in st.hist.applied ==> FixedAt(st', idx, rec)
    ensures CommitInv(st')
  {
    hide OnlyServer, Advances, CommitsOk, CommitMessagesOk, MatchesOk, AppliesOk, FixedAt;
    CommitsStay(st, i, s', st');
    CommitMessagesStay(st, st');
    MatchesStay(st, i, s', st');
    AppliesStay(st, i, s', st');
  }

  lemma SameHolds(log: seq<LogRecord>, c: int)
    requires c < |log|
    ensures HoldsUpto(log, log, c)
  {
  }

  // ---------- the steps ----------

  // -- the steps that change no log --

  /** The apply loop's and the commit index's share of a step that changes no log. */
  predicate CommitUnchanged(s: Server, s': Server) {
    && s'.log.records == s.log.records
    && (|| (s'.commitIndex == s.commitIndex && s'.lastApplied == s.lastApplied && s'.batch == s.batch && s'.delivered == s.delivered)
        || (s'.commitIndex == 0 && s'.lastApplied == 0 && s'.batch.None?))
    && (s'.role == Leader ==> s.role == Leader && s'.currentTerm == s.currentTerm && s'.matchIndex == s.matchIndex)
  }

  predicate IsApplying(step: Step) {
    step.Collect? || step.Deliver? || step.Finish?
  }

  lemma QuietCommit(st: Cluster, step: Step)
    requires Enabled(st, step) && Defined(st, step) && IsQuiet(st, step) && !IsApplying(step)
    requires ServerOk(st.servers[Actor(step)], Actor(step), |st.servers|)
    ensures Actor(step) < |st.servers|
    ensures var st' := Apply(st, step);
            && |st'.servers| == |st.servers| && st'.hist.applied == st.hist.applied
            && CommitUnchanged(st.servers[Actor(step)], st'.servers[Actor(step)])
  {
    hide IsMoreUpToDate, ReplicationMessage, VoteRequest;
  }

  lemma QuietServerCommit(st: Cluster, i: nat, s': Server, st': Cluster)
    requires CommitInv(st) && Advances(st, st') && OnlyQuiet(st, i, s', st') && CommitUnchanged(st.servers[i], s')
    ensures OnlyServer(st, i, s', st')
  {
    hide CommitMessagesOk, FixedUpto, Advances;
    var s := st.servers[i];
    FixedInRange(st, s.log.records, s.commitIndex, st.hist.source[i]);
    if s'.commitIndex == s.commitIndex {
      SameHolds(s.log.records, s.commitIndex);
      FixedStays(st, st', s.log.records, s.commitIndex, st.hist.source[i], s'.log.records, st.hist.source[i]);
    } else {
      FixedFirst(st', s'.log.records, st.hist.source[i]);
    }
    MatchStays(st, st', s);
  }

  lemma FixedFirst(st: Cluster, log: seq<LogRecord>, bound: nat)
    requires |log| > 0
    ensures FixedUpto(st, log, 0, bound)
  {
  }

  lemma CommitQuiet(st: Cluster, step: Step, st': Cluster)
    requires ServersOk(st) && CommitInv(st) && Advances(st, st')
    requires Next(st, step, st') && IsQuiet(st, step) && !IsApplying(step)
    ensures CommitInv(st')
  {
    hide CommitInv, Advances, OnlyQuiet, CommitUnchanged, OnlyServer, ServerOk, Apply, IsQuiet, Enabled, Defined;
    var i := Actor(step);
    ActorExists(st, step);
    QuietIsQuiet(st, step);
    QuietCommit(st, step);
    QuietServer(st, step);
    QuietServerCommit(st, i, st'.servers[i], st');
    KeepCommitServer(st, i, st'.servers[i], st');
  }

  // -- the apply loop --

  lemma ApplyServer(st: Cluster, step: Step, st': Cluster)
    requires Next(st, step, st') && IsApplying(step) && CommitInv(st) && step.i < |st.servers|
    requires st.servers[step.i].log.base == 0
    ensures |st'.servers| == |st.servers|
    ensures var s, s' := st.servers[step.i], st'.servers[step.i];
            && st'.servers == st.servers[step.i := s'] && s'.log == s.log && s'.commitIndex == s.commitIndex
            && s'.role == s.role && s'.currentTerm == s.currentTerm && s'.matchIndex == s.matchIndex && BatchOk(s')
            && st'.hist == st.hist.(applied := st'.hist.applied)
            && st'.appendReqs == st.appendReqs && st'.appendReps == st.appendReps
            && forall idx, rec :: (idx, rec) in st'.hist.applied && (idx, rec) !in st.hist.applied ==>
                 1 <= idx <= s.commitIndex < |s.log.records| && rec == s.log.records[idx]
  {
    hide CommitsOk, CommitMessagesOk, MatchesOk, FixedAt;
    assert BatchOk(st.servers[step.i]);
  }

  lemma CommitApply(st: Cluster, step: Step, st': Cluster)
    requires ServersOk(st) && CommitInv(st) && Advances(st, st') && Next(st, step, st') && IsApplying(step)
    ensures CommitInv(st')
  {
    hide Advances, Apply, Defined, FixedUpto, BatchOk, CommitMessagesOk, FixedAt, Persisted;
    ApplyServer(st, step, st');
    var s, s' := st.servers[step.i], st'.servers[step.i];
    FixedInRange(st, s.log.records, s.commitIndex, st.hist.source[step.i]);
    SameHolds(s.log.records, s.commitIndex);
    FixedStays(st, st', s.log.records, s.commitIndex, st.hist.source[step.i], s'.log.records, st.hist.source[step.i]);
    MatchStays(st, st', s);
    forall idx, rec | (idx, rec) in st'.hist.applied && (idx, rec) !in st.hist.applied ensures FixedAt(st', idx, rec) {
      FixedToAt(st', s'.log.records, s'.commitIndex, st.hist.source[step.i], idx);
    }
    KeepCommitServer(st, step.i, s', st');
  }

  // -- a new leader --

  lemma WinCommit(st: Cluster, m: VoteRepMsg)
    requires m.to < |st.servers| == |st.hist.source| && m.election in st.servers[m.to].votes
    requires (m.to, m.election) in st.hist.counted
    requires Wins(st, m) && ServerOk(st.servers[m.to], m.to, |st.servers|)
    ensures var s, st' := st.servers[m.to], DoVoteBack(st, m);
            var s' := st'.servers[m.to];
            && st'.servers == st.servers[m.to := s'] && s'.log == s.log && s'.commitIndex == s.commitIndex
            && s'.lastApplied == s.lastApplied && s'.batch == s.batch && s'.delivered == s.delivered
            && (forall p :: 0 <= p < |s'.matchIndex| ==> s'.matchIndex[p] == 0)
            && st'.appendReqs == st.appendReqs && st'.appendReps == st.appendReps && st'.hist.applied == st.hist.applied
            && st'.hist.source == st.hist.source[m.to := s.currentTerm]
  {
  }

  lemma CommitWin(st: Cluster, m: VoteRepMsg, st': Cluster)
    requires ServersOk(st) && ServerLogsOk(st) && CommitInv(st) && Advances(st, st')
    requires Next(st, VoteBack(m), st') && Wins(st, m)
    ensures CommitInv(st')
  {
    hide Advances, FixedUpto, CommitMessagesOk, FixedAt, Persisted, TakenFrom;
    WinCommit(st, m);
    hide HandleVoteReply;
    var i, s, s' := m.to, st.servers[m.to], st'.servers[m.to];
    assert ServerLogOk(st.hist.lead, s, st.hist.source[i]);
    FixedInRange(st, s.log.records, s.commitIndex, st.hist.source[i]);
    SameHolds(s.log.records, s.commitIndex);
    FixedStays(st, st', s.log.records, s.commitIndex, st.hist.source[i], s'.log.records, s.currentTerm);
    KeepCommitServer(st, i, s', st');
  }

  // -- a client's command --

  lemma CommitClient(st: Cluster, i: nat, op: Op, st': Cluster)
    requires ServersOk(st) && CommitInv(st) && Advances(st, st')
    requires Next(st, Client(i, op), st') && st.servers[i].role == Leader
    ensures CommitInv(st')
  {
    hide Advances, FixedUpto, CommitMessagesOk, FixedAt, Persisted;
    var s, s' := st.servers[i], st'.servers[i];
    FixedInRange(st, s.log.records, s.commitIndex, st.hist.source[i]);
    assert HoldsUpto(s'.log.records, s.log.records, s.commitIndex);
    FixedStays(st, st', s.log.records, s.commitIndex, st.hist.source[i], s'.log.records, st.hist.source[i]);
    MatchStays(st, st', s);
    KeepCommitServer(st, i, s', st');
  }

  // -- replication --

  ghost predicate SendsCommit(st: Cluster, i: nat, st': Cluster) {
    && i < |st.servers| == |st'.servers| == |st.hist.source|
    && var s, s' := st.servers[i], st'.servers[i];
    && st'.servers == st.servers[i := s'] && s' == s.(matchIndex := s'.matchIndex, nextIndex := s'.nextIndex)
    && st'.hist == st.hist && st'.appendReps == st.appendReps && MatchOk(st.hist.acked, s')
    && s.currentTerm in st.hist.lead.leaderLog && st.hist.lead.leaderLog[s.currentTerm] == s.log.records
    && st.hist.source[i] == s.currentTerm
    && forall m :: m in st'.appendReqs && m !in st.appendReqs ==>
         m.args.term == s.currentTerm && Total(m.args) == |s.log.records| && m.args.leaderCommit == s.commitIndex
  }

  lemma ReplicateCommit(st: Cluster, i: nat, term: nat, st': Cluster)
    requires ElectionInv(st) && LogInv(st) && AckedOk(st) && MatchesOk(st)
    requires i < |st.servers| && Next(st, Replicate(i, term), st') && !ContextLost(st.servers[i], Leader, term)
    ensures SendsCommit(st, i, st')
  {
    hide LogInv, AckedOk, MatchesOk, SendsCommit, BallotsOk, CountedOk, VotesOk, VoteMessagesOk, LeadersOk, ServerOk;
    hide DoReplicate;
    ReplicationSends(st, i, term);
  }

  lemma ReplicationSends(st: Cluster, i: nat, term: nat)
    requires LogInv(st) && LeadersOk(st) && AckedOk(st) && MatchesOk(st) && i < |st.servers|
    requires ServerOk(st.servers[i], i, |st.servers|) && !ContextLost(st.servers[i], Leader, term)
    ensures CanReplicate(st.servers[i]) && SendsCommit(st, i, DoReplicate(st, i, term))
  {
    hide LeaderLogOk, Persisted, ReplicationMessage, ArgsOk, AppendMessagesOk;
    assert ServerLogOk(st.hist.lead, st.servers[i], st.hist.source[i]);
    LogRequests(st, i, term);
    hide LeadersOk;
  }

  lemma CommitReplicate(st: Cluster, i: nat, st': Cluster)
    requires CommitInv(st) && Advances(st, st')
    requires SendsCommit(st, i, st')
    ensures CommitInv(st')
  {
    hide Advances, MatchOk;
    hide FixedUpto, CommitMessagesOk, FixedAt;
    var s, s' := st.servers[i], st'.servers[i];
    assert FixedUpto(st, s.log.records, s.commitIndex, st.hist.source[i]);
    FixedInRange(st, s.log.records, s.commitIndex, st.hist.source[i]);
    SameHolds(s.log.records, s.commitIndex);
    FixedStays(st, st', s.log.records, s.commitIndex, st.hist.source[i], s.log.records, s.currentTerm);
    CommitMessagesStay(st, st');
    hide MatchesOk, AppliesOk;
    CommitsStay(st, i, s', st');
    MatchesStay(st, i, s', st');
    AppliesStay(st, i, s', st');
  }

  // -- an append request --

  /** Accepting a request that reaches far enough keeps what the follower had committed. */
  lemma AcceptKeeps(st: Cluster, j: nat, log: seq<LogRecord>, t: nat)
    requires LeaderLogsOk(st.hist.lead) && ServerLogsOk(st) && AckedOk(st) && LeadersSafe(st)
    requires j < |st.servers| && st.servers[j].currentTerm <= t && t in st.hist.lead.leaderOf
    requires TakenFrom(st.hist.lead, t, log)
    requires (j, t) in st.hist.acked ==> st.hist.acked[(j, t)] <= |log|
    requires FixedUpto(st, st.servers[j].log.records, st.servers[j].commitIndex, st.hist.source[j])
    requires log[0] == st.servers[j].log.records[0]
    ensures HoldsUpto(log, st.servers[j].log.records, st.servers[j].commitIndex)
  {
    hide LeaderLogsOk, LeadersSafe;
    var s, c, source := st.servers[j], st.servers[j].commitIndex, st.hist.source[j];
    assert ServerLogOk(st.hist.lead, s, source);
    TermKnown(st.hist.lead, t);
    if c > 0 {
      var u: nat, k: int :| Fixes(st, u, k, s.log.records, c, source);
      if u < t {
        ChosenCanBe(st, u, k);
        LeadersSafeAt(st, u, t, k);
        FollowerHolds(st.hist.lead, t, log, u, k);
      }
    }
  }

  lemma TermKnown(h: Leaders, t: nat)
    requires LeaderLogsOk(h) && t in h.leaderOf
    ensures t in h.leaderLog && t != 0
  {
  }

  ghost predicate AcceptsCommit(st: Cluster, m: AppendReqMsg, s': Server, ok: bool, st': Cluster) {
    && m.to < |st.servers|
    && var s := st.servers[m.to];
    && (s'.role == Leader ==> s' == s) && s'.lastApplied == s.lastApplied && s'.batch == s.batch && s'.delivered == s.delivered
    && (!ok ==> s'.commitIndex == s.commitIndex)
    && (ok ==>
          && m.args.term in st.hist.lead.leaderLog && 0 <= Total(m.args) <= |st.hist.lead.leaderLog[m.args.term]|
          && s'.log.records == st.hist.lead.leaderLog[m.args.term][..Total(m.args)]
          && s'.commitIndex == (if m.args.leaderCommit > s.commitIndex then m.args.leaderCommit else s.commitIndex))
    && st'.hist.applied == st.hist.applied
    && (forall r :: r in st'.appendReps && r !in st.appendReps ==> r.reply.success == ok && r.from == m.to && r.args == m.args)
  }

  lemma AppendAcceptsCommit(st: Cluster, m: AppendReqMsg)
    requires m.to < |st.servers| == |st.hist.source| && ServerOk(st.servers[m.to], m.to, |st.servers|)
    requires LeaderLogsOk(st.hist.lead) && ServerLogOk(st.hist.lead, st.servers[m.to], st.hist.source[m.to])
    requires ArgsOk(st.hist.lead, m.args)
    ensures var (s', reply) := HandleAppend(st.servers[m.to], m.args);
            AcceptsCommit(st, m, s', reply.success, DoAppend(st, m))
  {
    hide LeaderLogsOk, Persisted, ServerLogOk;
    LogAppendServer(st.hist.lead, st.servers[m.to], st.hist.source[m.to], m.args);
  }

  /** A batch of committed entries is still a piece of a log that keeps what was committed. */
  lemma BatchStays(s: Server, s': Server)
    requires BatchOk(s) && HoldsUpto(s'.log.records, s.log.records, s.commitIndex)
    requires s.commitIndex <= s'.commitIndex < |s'.log.records|
    requires s'.lastApplied == s.lastApplied && s'.batch == s.batch && s'.delivered == s.delivered
    ensures BatchOk(s')
  {
    if s.batch.Some? {
      var lo, hi := s.lastApplied + 1, s.lastApplied + 1 + |s.batch.value|;
      assert s'.log.records[lo..hi] == s.log.records[lo..hi];
    }
  }

  lemma AcceptServer(st: Cluster, m: AppendReqMsg, s': Server, ok: bool, st': Cluster)
    requires ServersOk(st) && LeaderLogsOk(st.hist.lead) && ServerLogsOk(st) && AckedOk(st) && LeadersSafe(st) && CommitInv(st)
    requires ArgsOk(st.hist.lead, m.args) && Takes(st, m, s', ok, st') && AcceptsCommit(st, m, s', ok, st') && Advances(st, st')
    ensures OnlyServer(st, m.to, s', st')
  {
    hide LeadersSafe, Advances, FixedUpto, FixedAt, Persisted, ServersOk, LeaderLogOk, BatchOk;
    var i, s, t := m.to, st.servers[m.to], m.args.term;
    assert ServerLogOk(st.hist.lead, s, st.hist.source[i]);
    FixedInRange(st, s.log.records, s.commitIndex, st.hist.source[i]);
    if ok {
      assert TakenFrom(st.hist.lead, t, s'.log.records);
      FirstSame(st.hist.lead, st.hist.source[i], s.log.records, t, s'.log.records);
      AcceptKeeps(st, i, s'.log.records, t);
      FixedStays(st, st', s.log.records, s.commitIndex, st.hist.source[i], s'.log.records, t);
      if m.args.leaderCommit > s.commitIndex {
        FixedStays(st, st', st.hist.lead.leaderLog[t], m.args.leaderCommit, t, s'.log.records, t);
      }
      BatchStays(s, s');
    } else {
      SameHolds(s.log.records, s.commitIndex);
      FixedStays(st, st', s.log.records, s.commitIndex, st.hist.source[i], s'.log.records, st.hist.source[i]);
      BatchStays(s, s');
    }
    MatchStays(st, st', s);
  }

  lemma FirstSame(h: Leaders, t: nat, a: seq<LogRecord>, u: nat, b: seq<LogRecord>)
    requires LeaderLogsOk(h) && TakenFrom(h, t, a) && TakenFrom(h, u, b)
    ensures |a| > 0 && |b| > 0 && a[0] == b[0]
  {
    assert LeaderLogOk(h, t) && LeaderLogOk(h, u);
  }

  lemma CommitAppend(st: Cluster, m: AppendReqMsg, st': Cluster)
    requires ElectionInv(st) && LogInv(st) && ChoiceInv(st) && CommitInv(st) && Advances(st, st')
    requires Next(st, Append(m), st') && Reaches(st, Append(m))
    ensures CommitInv(st')
  {
    hide ServerOk, BallotsOk, VotesOk, VoteMessagesOk, CountedOk, LeadersOk, LeaderLogsOk, ServerLogOk;
    hide CandidatesOk, VotesSafe, LeadersSafe, AckedOk, Advances, HandleAppend;
    hide CommitsOk, CommitMessagesOk, MatchesOk, AppliesOk, FixedAt, ArgsOk, ConflictOk;
    AppendTakes(st, m);
    AppendAcceptsCommit(st, m);
    var (s', reply) := HandleAppend(st.servers[m.to], m.args);
    AcceptServer(st, m, s', reply.success, st');
    hide OnlyServer;
    CommitsStay(st, m.to, s', st');
    CommitMessagesStay(st, st');
    MatchesStay(st, m.to, s', st');
    AppliesStay(st, m.to, s', st');
  }

  // -- an append reply --

  /** The commit rule: what a majority took over in this term, up to an entry of this term, is chosen. */
  lemma AdvanceChooses(st: Cluster, s: Server)
    requires s.role == Leader && s.log.base == 0 && s.commitIndex >= 0 && |s.matchIndex| == |st.servers| > 0
    requires forall p :: 0 <= p < |s.matchIndex| ==> s.matchIndex[p] < s.log.Size()
    requires MatchOk(st.hist.acked, s)
    requires s.currentTerm in st.hist.lead.leaderOf && s.currentTerm in st.hist.lead.leaderLog
    requires st.hist.lead.leaderLog[s.currentTerm] == s.log.records
    requires AdvanceCommit(s).commitIndex != s.commitIndex
    ensures var m := AdvanceCommit(s).commitIndex;
            && m == MajorityIndex(s.matchIndex) && m > s.commitIndex && m < |s.log.records|
            && Chosen(st, s.currentTerm, m)
  {
    var m := MajorityIndex(s.matchIndex);
    MajorityIndexIsLargest(s.matchIndex);
    MajorityIndexIsMember(s.matchIndex);
    hide MajorityIndex;
    assert Reaching(s.matchIndex, m) <= Holders(st, s.currentTerm, m);
    SubsetIsSmaller(Reaching(s.matchIndex, m), Holders(st, s.currentTerm, m));
  }

  lemma CountServer(st: Cluster, s: Server, source: nat, m: AppendRepMsg)
    requires ServerOk(s, s.me, |st.servers|) && ServerLogOk(st.hist.lead, s, source) && ArgsOk(st.hist.lead, m.args)
    requires FixedUpto(st, s.log.records, s.commitIndex, source) && MatchOk(st.hist.acked, s) && BatchOk(s)
    requires m.from < |st.servers| && CanHandleReply(s, m) && AppendReplyCounts(s, m.args, m.reply) && m.reply.success
    requires Took(st.hist.acked, m.from, m.args.term, Total(m.args) - 1)
    ensures var s' := HandleAppendReply(s, m.from, m.args, m.reply);
            FixedUpto(st, s'.log.records, s'.commitIndex, source) && MatchOk(st.hist.acked, s') && BatchOk(s')
  {
    hide Persisted, MajorityIndex, FixedUpto, AdvanceCommit, BatchOk;
    var matched := m.args.prevLogIndex + |m.args.entries|;
    var s1 := s.(matchIndex := s.matchIndex[m.from := matched], nextIndex := s.nextIndex[m.from := matched + 1]);
    LogAdvance(s1);
    var s' := AdvanceCommit(s1);
    FixedInRange(st, s.log.records, s.commitIndex, source);
    if s'.commitIndex != s.commitIndex {
      AdvanceChooses(st, s1);
      SameHolds(s.log.records, s'.commitIndex);
      WitnessFixes(st, s.currentTerm, s'.commitIndex, s.log.records, s'.commitIndex, source);
    }
    SameHolds(s.log.records, s.commitIndex);
    BatchStays(s, s');
  }

  lemma WitnessFixes(st: Cluster, t: nat, k: int, log: seq<LogRecord>, c: int, bound: nat)
    requires 0 <= c < |log| && Chosen(st, t, k) && HoldsUpto(log, st.hist.lead.leaderLog[t], c) && t <= bound && c <= k
    ensures FixedUpto(st, log, c, bound)
  {
    assert Fixes(st, t, k, log, c, bound);
  }

  lemma BackServer(st: Cluster, s: Server, source: nat, m: AppendRepMsg)
    requires ServerOk(s, s.me, |st.servers|) && ServerLogOk(st.hist.lead, s, source) && ArgsOk(st.hist.lead, m.args)
    requires FixedUpto(st, s.log.records, s.commitIndex, source) && MatchOk(st.hist.acked, s) && BatchOk(s)
    requires m.from < |st.servers| && CanHandleReply(s, m)
    requires m.reply.success ==> Took(st.hist.acked, m.from, m.args.term, Total(m.args) - 1)
    ensures var s' := HandleAppendReply(s, m.from, m.args, m.reply);
            FixedUpto(st, s'.log.records, s'.commitIndex, source) && MatchOk(st.hist.acked, s') && BatchOk(s')
  {
    if AppendReplyCounts(s, m.args, m.reply) && m.reply.success {
      CountServer(st, s, source, m);
    } else {
      hide FixedUpto, MajorityIndex, BackUp, Persisted;
    }
  }

  lemma CommitAppendBack(st: Cluster, m: AppendRepMsg, st': Cluster)
    requires ServersOk(st) && LogInv(st) && CommitInv(st) && Advances(st, st') && Next(st, AppendBack(m), st')
    ensures CommitInv(st')
  {
    hide LeaderLogsOk, ServerLogOk, ArgsOk, ConflictOk, HandleAppendReply, CanHandleReply, ServerOk;
    hide FixedUpto, MatchOk, BatchOk, Advances, FixedAt;
    var i := m.args.leaderId;
    ServersMe(st, i);
    var s, s' := st.servers[i], st'.servers[i];
    BackServer(st, s, st.hist.source[i], m);
    SameFixed(st, st', s'.log.records, s'.commitIndex, st.hist.source[i]);
    KeepCommitServer(st, i, s', st');
  }

  lemma ServersMe(st: Cluster, i: nat)
    requires ServersOk(st) && i < |st.servers|
    ensures ServerOk(st.servers[i], st.servers[i].me, |st.servers|) && st.servers[i].me == i
  {
  }

  lemma SameFixed(st: Cluster, st': Cluster, log: seq<LogRecord>, c: int, bound: nat)
    requires FixedUpto(st, log, c, bound) && Advances(st, st')
    ensures FixedUpto(st', log, c, bound)
  {
    SameHolds(log, c);
    FixedStays(st, st', log, c, bound, log, bound);
  }

  // ---------- whole runs ----------

  lemma KeepCommit(st: Cluster, step: Step, st': Cluster)
    requires ElectionInv(st) && LogInv(st) && ChoiceInv(st) && CommitInv(st)
    requires Next(st, step, st') && OwnTermVote(st, step) && Reaches(st, step)
    ensures CommitInv(st')
  {
    hide BallotsOk, VotesOk, VoteMessagesOk, CountedOk, LeadersOk, CommitInv, Advances, HandleVoteReply, ServerOk;
    hide LeaderLogsOk, ServerLogsOk, AppendMessagesOk, CandidatesOk, VotesSafe, LeadersSafe, AckedOk;
    KeepChoice(st, step, st');
    if IsApplying(step) {
      CommitApply(st, step, st');
    } else if IsQuiet(st, step) {
      CommitQuiet(st, step, st');
    } else {
      match step
      case VoteBack(m) => CommitWin(st, m, st');
      case Client(i, op) => CommitClient(st, i, op, st');
      case Replicate(i, term) =>
        MatchesHold(st);
        ReplicateCommit(st, i, term, st');
        CommitReplicate(st, i, st');
      case Append(m) => CommitAppend(st, m, st');
      case AppendBack(m) => CommitAppendBack(st, m, st');
      case _ =>
    }
  }

  lemma MatchesHold(st: Cluster)
    requires CommitInv(st)
    ensures MatchesOk(st)
  {
  }

  lemma InitialCommit(n: nat)
    ensures CommitInv(Initial(n))
  {
  }

  lemma {:induction false} CommitInvHolds(states: seq<Cluster>, steps: seq<Step>, k: nat)
    requires Run(states, steps) && OwnTermVotes(states, steps) && AppendsReach(states, steps) && k < |states|
    ensures ElectionInv(states[k]) && LogInv(states[k]) && ChoiceInv(states[k]) && CommitInv(states[k])
  {
    hide ElectionInv, LogInv, ChoiceInv, CommitInv, OwnTermVote, Reaches;
    ChoiceInvHolds(states, steps, k);
    if k == 0 {
      InitialCommit(|states[0].servers|);
    } else {
      CommitInvHolds(states, steps, k - 1);
      assert Next(states[k - 1], steps[k - 1], states[k - 1 + 1]);
      hide Next;
      KeepCommit(states[k - 1], steps[k - 1], states[k]);
    }
  }

  lemma AdvancesTrans(a: Cluster, b: Cluster, c: Cluster)
    requires Advances(a, b) && Advances(b, c)
    ensures Advances(a, c)
  {
    GrowsTrans(a.hist.lead, b.hist.lead, c.hist.lead);
    hide Grows;
  }

  lemma AdvancesSame(a: Cluster)
    ensures Advances(a, a)
  {
  }

  lemma {:induction false} AdvancesLong(states: seq<Cluster>, steps: seq<Step>, a: nat, b: nat)
    requires Run(states, steps) && OwnTermVotes(states, steps) && AppendsReach(states, steps) && a <= b < |states|
    ensures Advances(states[a], states[b])
  {
    hide ElectionInv, LogInv, ChoiceInv, Advances, OwnTermVote, Reaches, Next;
    if a == b {
      AdvancesSame(states[a]);
    } else {
      AdvancesLong(states, steps, a, b - 1);
      ChoiceInvHolds(states, steps, b - 1);
      assert Next(states[b - 1], steps[b - 1], states[b - 1 + 1]);
      KeepChoice(states[b - 1], steps[b - 1], states[b]);
      AdvancesTrans(states[a], states[b - 1], states[b]);
    }
  }

  /** What a server had committed at one time, seen from the end of the run. */
  lemma CommittedAtEnd(states: seq<Cluster>, steps: seq<Step>, a: nat, i: nat)
    requires Run(states, steps) && OwnTermVotes(states, steps) && AppendsReach(states, steps)
    requires a < |states| && i < |states[a].servers|
    ensures |states[a].hist.source| == |states[a].servers|
    ensures FixedUpto(states[|states| - 1], states[a].servers[i].log.records, states[a].servers[i].commitIndex,
                      states[a].hist.source[i])
    ensures states[a].hist.source[i] <= states[a].servers[i].currentTerm
  {
    hide ElectionInv, LeaderLogsOk, AppendMessagesOk, ChoiceInv, CommitMessagesOk, MatchesOk, AppliesOk, Advances, OwnTermVote, Reaches, Next, FixedUpto;
    CommitInvHolds(states, steps, a);
    AdvancesLong(states, steps, a, |states| - 1);
    SameFixed(states[a], states[|states| - 1], states[a].servers[i].log.records, states[a].servers[i].commitIndex,
              states[a].hist.source[i]);
  }

  /**
   * State Machine Safety: two servers that have committed an index, at one time or at different times,
   * hold the same entry there; and a commit index always lies inside the server's log.
   */
  lemma StateMachineSafety(states: seq<Cluster>, steps: seq<Step>, a: nat, i: nat, b: nat, j: nat, idx: nat)
    requires Run(states, steps) && OwnTermVotes(states, steps) && AppendsReach(states, steps)
    requires a < |states| && b < |states| && i < |states[a].servers| && j < |states[b].servers|
    requires 1 <= idx <= states[a].servers[i].commitIndex && idx <= states[b].servers[j].commitIndex
    ensures states[a].servers[i].commitIndex < |states[a].servers[i].log.records|
    ensures states[b].servers[j].commitIndex < |states[b].servers[j].log.records|
    ensures states[a].servers[i].log.records[idx] == states[b].servers[j].log.records[idx]
  {
    hide ElectionInv, LeaderLogsOk, ServerLogsOk, AppendMessagesOk, CommitInv, AckedOk, CandidatesOk;
    hide VotesSafe, LeadersSafe, OwnTermVote, Reaches, Next, FixedUpto;
    var last := states[|states| - 1];
    ChoiceInvHolds(states, steps, |states| - 1);
    CommittedAtEnd(states, steps, a, i);
    CommittedAtEnd(states, steps, b, j);
    var s, s' := states[a].servers[i], states[b].servers[j];
    FixedInRange(last, s.log.records, s.commitIndex, states[a].hist.source[i]);
    FixedInRange(last, s'.log.records, s'.commitIndex, states[b].hist.source[j]);
    FixedAgree(last, s.log.records, s.commitIndex, states[a].hist.source[i],
               s'.log.records, s'.commitIndex, states[b].hist.source[j], idx);
  }

  /** No index is ever applied with two different entries, by any servers at any times. */
  lemma AppliedOnce(states: seq<Cluster>, steps: seq<Step>, idx: int, rec: LogRecord, rec': LogRecord)
    requires Run(states, steps) && OwnTermVotes(states, steps) && AppendsReach(states, steps)
    requires var applied := states[|states| - 1].hist.applied;
             (idx, rec) in applied && (idx, rec') in applied
    ensures rec == rec'
  {
    hide ElectionInv, LeaderLogsOk, ServerLogsOk, AppendMessagesOk, AckedOk, CandidatesOk;
    hide VotesSafe, LeadersSafe, OwnTermVote, Reaches, Next, CommitsOk, CommitMessagesOk, MatchesOk, FixedAt;
    CommitInvHolds(states, steps, |states| - 1);
    FixedAtAgree(states[|states| - 1], idx, rec, rec');
  }

  /** A leader of a later term holds everything that a server had committed, at any time of the run. */
  lemma LeaderHoldsCommitted(states: seq<Cluster>, steps: seq<Step>, a: nat, i: nat, b: nat, j: nat)
    requires Run(states, steps) && OwnTermVotes(states, steps) && AppendsReach(states, steps)
    requires a < |states| && b < |states| && i < |states[a].servers| && j < |states[b].servers|
    requires states[b].servers[j].role == Leader
    requires states[a].servers[i].currentTerm < states[b].servers[j].currentTerm
    ensures HoldsUpto(states[b].servers[j].log.records, states[a].servers[i].log.records, states[a].servers[i].commitIndex)
  {
    hide ElectionInv, LeaderLogsOk, ServerLogsOk, AppendMessagesOk, AckedOk, CandidatesOk;
    hide VotesSafe, LeadersSafe, OwnTermVote, Reaches, Next, ServerLogOk, TakenFrom, FixedUpto;
    var n := |states| - 1;
    var last, s, s' := states[n], states[a].servers[i], states[b].servers[j];
    ChoiceInvHolds(states, steps, n);
    CommittedAtEnd(states, steps, a, i);
    FixedInRange(last, s.log.records, s.commitIndex, states[a].hist.source[i]);
    LeaderAtEnd(states, steps, b, j);
    var t := HeldLog(states, steps, a, i);
    FirstSame(last.hist.lead, t, s.log.records, s'.currentTerm, s'.log.records);
    if s.commitIndex > 0 {
      FixedHeld(last, s.log.records, s.commitIndex, states[a].hist.source[i], s'.currentTerm, s'.log.records);
    }
  }

  lemma LeaderAtEnd(states: seq<Cluster>, steps: seq<Step>, b: nat, j: nat)
    requires Run(states, steps) && OwnTermVotes(states, steps) && b < |states| && j < |states[b].servers|
    requires states[b].servers[j].role == Leader
    ensures TakenFrom(states[|states| - 1].hist.lead, states[b].servers[j].currentTerm, states[b].servers[j].log.records)
  {
    hide ElectionInv, OwnTermVote, Next, Grows;
    LogInvHolds(states, steps, b);
    ActorLog(states[b], j);
    GrowsLong(states, steps, b, |states| - 1);
    TakenGrows(states[b].hist.lead, states[|states| - 1].hist.lead, states[b].servers[j].currentTerm,
               states[b].servers[j].log.records);
  }

  lemma FixedHeld(st: Cluster, log: seq<LogRecord>, c: int, bound: nat, u: nat, held: seq<LogRecord>)
    requires LeaderLogsOk(st.hist.lead) && LeadersSafe(st) && FixedUpto(st, log, c, bound) && c > 0 && bound < u
    requires TakenFrom(st.hist.lead, u, held)
    ensures HoldsUpto(held, log, c)
  {
    hide LeaderLogsOk, LeadersSafe;
    var t: nat, k: int :| Fixes(st, t, k, log, c, bound);
    ChosenCanBe(st, t, k);
    LeadersSafeAt(st, t, u, k);
    FollowerHolds(st.hist.lead, u, held, t, k);
  }

  // ---------- two consequences ----------

  /** No step of such a run indexes a log, a slice of peers or a batch out of range. */
  lemma NoPanic(states: seq<Cluster>, steps: seq<Step>, k: nat, step: Step)
    requires Run(states, steps) && OwnTermVotes(states, steps) && AppendsReach(states, steps) && k < |states|
    requires Enabled(states[k], step)
    ensures Defined(states[k], step)
  {
    hide BallotsOk, CountedOk, VoteMessagesOk, LeadersOk, ChoiceInv, CommitsOk, CommitMessagesOk, MatchesOk;
    hide OwnTermVote, Reaches, Next, FixedAt, LeaderLogsOk, ServerLogOk, CanHandleReply, CanReplicate, Persisted, Enabled;
    CommitInvHolds(states, steps, k);
    StepDefined(states[k], step);
  }

  lemma StepDefined(st: Cluster, step: Step)
    requires ElectionInv(st) && LogInv(st) && CommitInv(st) && Enabled(st, step)
    ensures Defined(st, step)
  {
    hide BallotsOk, CountedOk, VoteMessagesOk, LeadersOk, CommitsOk, CommitMessagesOk, MatchesOk;
    hide FixedAt, LeaderLogsOk, ServerLogOk, CanHandleReply, CanReplicate, Persisted;
    match step
    case Replicate(i, term) =>
      if !ContextLost(st.servers[i], Leader, term) {
        LogReplicate(st, i, term);
      }
    case AppendBack(m) => LogAppendBack(st, m);
    case _ =>
  }

  /**
   * Taking over LeaderCommit unclamped is taking over the smaller of LeaderCommit and the index of the
   * last new entry, as Figure 2 of the Raft paper has it.
   */
  lemma UnclampedCommit(states: seq<Cluster>, steps: seq<Step>, k: nat, m: AppendReqMsg)
    requires Run(states, steps) && OwnTermVotes(states, steps) && AppendsReach(states, steps) && k < |states|
    requires m in states[k].appendReqs && m.to < |states[k].servers|
    requires Readable(states[k].servers[m.to], m.args)
    requires HandleAppend(states[k].servers[m.to], m.args).1.success
    ensures var s, s' := states[k].servers[m.to], HandleAppend(states[k].servers[m.to], m.args).0;
            var lastNew := m.args.prevLogIndex + |m.args.entries|;
            && s'.log.Size() - 1 == lastNew
            && s'.commitIndex ==
                 if m.args.leaderCommit > s.commitIndex
                 then if m.args.leaderCommit < lastNew then m.args.leaderCommit else lastNew
                 else s.commitIndex
  {
    hide BallotsOk, CountedOk, VotesOk, VoteMessagesOk, LeadersOk, ChoiceInv, CommitsOk, MatchesOk, AppliesOk;
    hide OwnTermVote, Reaches, Next, FixedUpto, LeaderLogsOk, ServerLogOk, Persisted, ConflictOk;
    CommitInvHolds(states, steps, k);
    var st := states[k];
    LogAppendServer(st.hist.lead, st.servers[m.to], st.hist.source[m.to], m.args);
  }
}
