/**
 * A network that keeps the order of one leader's requests meets what the safety theorems ask for: in every
 * run in which a follower accepts the requests of one term in the order in which they were sent, each
 * accepted request reaches as far as what the follower took over before. A leader's later requests are no
 * shorter than its earlier ones.
 */
module OrderedAppends {
  import opened KvTypes
  import opened RaftServer
  import opened Cluster
  import opened ElectionSafety
  import opened LogMatching
  import opened LeaderCompleteness

  /** A leader's later requests are no shorter than its earlier ones. */
  ghost predicate OrderOk(st: Cluster) {
    && (forall m :: m in st.appendReqs ==> m.sentAt < st.clock)
    && (forall m, m' :: m in st.appendReqs && m' in st.appendReqs ==>
          (m.args.term == m'.args.term && m.sentAt <= m'.sentAt ==> Total(m.args) <= Total(m'.args)))
  }

  /** What a follower took over in a term is no more than any request of that term still in order brings. */
  ghost predicate SeenOk(st: Cluster) {
    && (forall q, t :: (q, t) in st.hist.acked ==>
          (t in st.hist.lead.leaderOf && q == st.hist.lead.leaderOf[t]) || (q, t) in st.hist.lastSeen)
    && (forall q, t :: (q, t) in st.hist.lastSeen ==>
          (q, t) in st.hist.acked && t in st.hist.lead.leaderOf && q != st.hist.lead.leaderOf[t])
    && (forall q, t, m :: (q, t) in st.hist.lastSeen && m in st.appendReqs ==>
          (m.args.term == t && st.hist.lastSeen[(q, t)] <= m.sentAt ==>
             st.hist.acked[(q, t)] <= Total(m.args)))
  }

  ghost predicate SeenInv(st: Cluster) {
    OrderOk(st) && SeenOk(st)
  }

  // ---------- what the steps keep ----------

  lemma QuietSeen(st: Cluster, i: nat, s': Server, st': Cluster)
    requires OnlyQuiet(st, i, s', st') && SeenInv(st)
    ensures SeenInv(st')
  {
  }

  lemma LeadSeen(st: Cluster, i: nat, s': Server, q: set<nat>, st': Cluster)
    requires Leads(st, i, s', q, st') && LeaderLogsOk(st.hist.lead) && AckedOk(st) && SeenInv(st)
    ensures SeenInv(st')
  {
    hide LeaderLogOk;
  }

  lemma ExtendSeen(st: Cluster, i: nat, s': Server, st': Cluster)
    requires Extends(st, i, s', st') && SeenInv(st)
    ensures SeenInv(st')
  {
  }

  lemma SendSeen(st: Cluster, i: nat, s': Server, st': Cluster)
    requires Sends(st, i, s', st') && LogInv(st) && AckedOk(st) && SeenInv(st)
    ensures SeenInv(st')
  {
    hide TakenFrom, LeaderLogsOk;
    assert ServerLogOk(st.hist.lead, st.servers[i], st.hist.source[i]);
    assert forall m :: m in st.appendReqs ==> ArgsOk(st.hist.lead, m.args);
    hide ConflictOk, AppendMessagesOk;
  }

  lemma TakeSeen(st: Cluster, m: AppendReqMsg, s': Server, ok: bool, st': Cluster)
    requires Takes(st, m, s', ok, st') && SeenInv(st)
    ensures SeenInv(st')
  {
  }

  // ---------- every step ----------

  lemma SeenAppend(st: Cluster, m: AppendReqMsg, st': Cluster)
    requires ElectionInv(st) && LogInv(st) && Next(st, Append(m), st') && Reaches(st, Append(m)) && SeenInv(st)
    ensures SeenInv(st')
  {
    hide BallotsOk, VotesOk, VoteMessagesOk, CountedOk, LeadersOk, LogInv, ServersOk, Takes, HandleAppend, SeenInv, Reaches;
    AppendTakes(st, m);
    var (s', reply) := HandleAppend(st.servers[m.to], m.args);
    TakeSeen(st, m, s', reply.success, st');
  }

  lemma SeenWin(st: Cluster, m: VoteRepMsg, st': Cluster)
    requires ElectionInv(st) && LogInv(st) && AckedOk(st) && SeenInv(st)
    requires m.to < |st.servers| && m.election in st.servers[m.to].votes && Wins(st, m)
    requires Next(st, VoteBack(m), st') && OwnTermVote(st, VoteBack(m))
    ensures SeenInv(st')
  {
    hide ElectionInv, AckedOk, LeaderLogsOk, ServerLogsOk, AppendMessagesOk, SeenInv, HandleVoteReply, Leads, NewCount, DoVoteBack;
    WinLeads(st, m);
    LeadSeen(st, m.to, HandleVoteReply(st.servers[m.to], m.election, m.reply), NewCount(st, m), st');
  }

  lemma SeenClient(st: Cluster, i: nat, op: Op, st': Cluster)
    requires ElectionInv(st) && LogInv(st) && SeenInv(st)
    requires i < |st.servers| && st.servers[i].role == Leader && Next(st, Client(i, op), st')
    ensures SeenInv(st')
  {
    hide ElectionInv, LogInv, SeenInv, Extends, DoClient, Start;
    ClientExtends(st, i, op);
    ExtendSeen(st, i, Start(st.servers[i], op), st');
  }

  lemma SeenReplicate(st: Cluster, i: nat, term: nat, st': Cluster)
    requires ElectionInv(st) && LogInv(st) && AckedOk(st) && SeenInv(st)
    requires i < |st.servers| && !ContextLost(st.servers[i], Leader, term) && Next(st, Replicate(i, term), st')
    ensures SeenInv(st')
  {
    hide ElectionInv, LogInv, AckedOk, SeenInv, Sends, DoReplicate, StartReplication;
    ReplicateSends(st, i, term);
    SendSeen(st, i, StartReplication(st.servers[i], term), st');
  }

  lemma KeepSeen(st: Cluster, step: Step, st': Cluster)
    requires ElectionInv(st) && LogInv(st) && AckedOk(st) && SeenInv(st)
    requires Next(st, step, st') && OwnTermVote(st, step) && Reaches(st, step)
    ensures SeenInv(st')
  {
    hide LogInv, AckedOk, SeenInv, Reaches, BallotsOk, VotesOk, VoteMessagesOk, CountedOk, LeadersOk, HandleVoteReply, HandleAppendReply;
    if IsQuiet(st, step) {
      assert ServerOk(st.servers[Actor(step)], Actor(step), |st.servers|);
      QuietServer(st, step);
      QuietSeen(st, Actor(step), st'.servers[Actor(step)], st');
    } else {
      match step
      case VoteBack(m) => SeenWin(st, m, st');
      case Client(i, op) => SeenClient(st, i, op, st');
      case Replicate(i, term) => SeenReplicate(st, i, term, st');
      case Append(m) => SeenAppend(st, m, st');
      case AppendBack(m) => AppendBackQuiet(st, m, st'); QuietSeen(st, m.args.leaderId, st'.servers[m.args.leaderId], st');
      case _ =>
    }
  }

  // ---------- whole runs ----------

  lemma InOrderReaches(st: Cluster, step: Step)
    requires SeenInv(st) && LogInv(st) && InOrder(st, step)
    ensures Reaches(st, step)
  {
    hide LeaderLogsOk, ServerLogsOk, ConflictOk, HandleAppend;
  }

  lemma SeenAtFirst(n: nat)
    ensures SeenInv(Initial(n))
  {
  }

  lemma {:induction false} SeenInvHolds(states: seq<Cluster>, steps: seq<Step>, k: nat)
    requires Run(states, steps) && OwnTermVotes(states, steps) && AppendsInOrder(states, steps) && k < |states|
    ensures ElectionInv(states[k]) && LogInv(states[k]) && ChoiceInv(states[k]) && SeenInv(states[k])
  {
    hide ElectionInv, LogInv, OwnTermVote, InOrder, Reaches, Next, AckedOk, CandidatesOk, VotesSafe, LeadersSafe, SeenInv;
    LogInvHolds(states, steps, k);
    if k == 0 {
      InitialChoice(|states[0].servers|);
      SeenAtFirst(|states[0].servers|);
    } else {
      SeenInvHolds(states, steps, k - 1);
      assert Next(states[k - 1], steps[k - 1], states[k - 1 + 1]);
      assert OwnTermVote(states[k - 1], steps[k - 1]) && InOrder(states[k - 1], steps[k - 1]);
      InOrderReaches(states[k - 1], steps[k - 1]);
      KeepChoice(states[k - 1], steps[k - 1], states[k]);
      KeepSeen(states[k - 1], steps[k - 1], states[k]);
    }
  }

  /** In order is enough: such a run meets the condition of State Machine Safety. */
  lemma InOrderIsEnough(states: seq<Cluster>, steps: seq<Step>)
    requires Run(states, steps) && OwnTermVotes(states, steps) && AppendsInOrder(states, steps)
    ensures AppendsReach(states, steps)
  {
    forall k | 0 <= k < |steps| ensures Reaches(states[k], steps[k]) {
      SeenInvHolds(states, steps, k);
      InOrderReaches(states[k], steps[k]);
    }
  }
}
