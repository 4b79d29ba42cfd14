/**
 * Leader Completeness (sections 5.4.1 and 5.4.3 of the extended Raft paper), over every run in which
 * replies that make a leader are of its term and accepted requests reach as far as what was taken over in theirs.
 *
 * An entry of term t, at index k of the log of the leader of t, is chosen once a majority took it over in
 * t. It can be chosen as long as a majority has, or is not yet past t. Whatever can be chosen is held by
 * every later leader: each voter that took it over makes sure of that when it votes.
 */
module LeaderCompleteness {
  import opened FiniteSets
  import opened KvTypes
  import opened RaftLog
  import opened RaftServer
  import opened Majority
  import opened Cluster
  import opened ElectionSafety
  import opened LogMatching

  type Acks = map<(nat, nat), nat>

  predicate Took(acked: Acks, q: nat, t: nat, k: int) {
    (q, t) in acked && acked[(q, t)] > k
  }

  /** The servers that took over index k of the log of the leader of t. */
  ghost function Holders(st: Cluster, t: nat, k: int): set<nat> {
    set q | q in Upto(|st.servers|) && Took(st.hist.acked, q, t, k)
  }

  /** Those and the servers that still could. */
  ghost function Able(st: Cluster, t: nat, k: int): set<nat> {
    set q | q in Upto(|st.servers|) && (st.servers[q].currentTerm <= t || Took(st.hist.acked, q, t, k))
  }

  ghost predicate OwnEntry(h: Leaders, t: nat, k: int) {
    t in h.leaderOf && t in h.leaderLog && 0 <= k < |h.leaderLog[t]| && h.leaderLog[t][k].term == t
  }

  ghost predicate Chosen(st: Cluster, t: nat, k: int) {
    OwnEntry(st.hist.lead, t, k) && IsQuorum(Holders(st, t, k), |st.servers|)
  }

  ghost predicate CanBeChosen(st: Cluster, t: nat, k: int) {
    OwnEntry(st.hist.lead, t, k) && IsQuorum(Able(st, t, k), |st.servers|)
  }

  /** `log` holds everything that `other` does up to index k. */
  ghost predicate HoldsUpto(log: seq<LogRecord>, other: seq<LogRecord>, k: int) {
    k < |log| && k < |other| && forall x :: 0 <= x <= k ==> log[x] == other[x]
  }

  // ---------- the invariant ----------

  /** What a server took over in a term is in that leader's log, and is what it still holds if it has followed no other since. */
  ghost predicate AckedOk(st: Cluster) {
    && |st.hist.source| == |st.servers|
    && (forall q, t :: (q, t) in st.hist.acked ==>
          && q < |st.servers| && t <= st.hist.source[q]
          && t in st.hist.lead.leaderOf && t in st.hist.lead.leaderLog
          && 1 <= st.hist.acked[(q, t)] <= |st.hist.lead.leaderLog[t]|)
    && (forall q: nat :: q < |st.servers| && st.hist.source[q] != 0 ==>
          (q, st.hist.source[q]) in st.hist.acked &&
          st.hist.acked[(q, st.hist.source[q])] == |st.servers[q].log.records|)
  }

  /** The log a candidate stood with ends in a term before its own, and is a prefix of that leader's log. */
  ghost predicate StoodOk(h: Leaders, term: nat, log: seq<LogRecord>) {
    |log| > 0 &&
    var w := log[|log| - 1].term;
    w < term && w in h.leaderLog && IsPrefix(log, h.leaderLog[w])
  }

  ghost predicate CandidatesOk(st: Cluster) {
    && (forall c, u :: (c, u) in st.hist.candLog ==>
          c < |st.servers| && u <= st.servers[c].currentTerm && StoodOk(st.hist.lead, u, st.hist.candLog[(c, u)]))
    && (forall i: nat :: i < |st.servers| && st.servers[i].role == Candidate ==>
          var key := (i, st.servers[i].currentTerm);
          key in st.hist.candLog && st.hist.candLog[key] == st.servers[i].log.records)
    && (forall v, u :: (v, u) in st.hist.ballots ==> (st.hist.ballots[(v, u)], u) in st.hist.candLog)
    && (forall m :: m in st.voteReqs ==>
          var key := (m.args.candidateId, m.args.term);
          && key in st.hist.candLog && |st.hist.candLog[key]| > 0
          && m.args.lastLogIndex == |st.hist.candLog[key]| - 1
          && m.args.lastLogTerm == st.hist.candLog[key][m.args.lastLogIndex].term)
  }

  /** If voter q took over what can be chosen, then the candidate it voted for in u holds it. */
  ghost predicate SafeVote(st: Cluster, q: nat, u: nat)
    requires (q, u) in st.hist.ballots
  {
    forall t: nat, k: int :: Took(st.hist.acked, q, t, k) && CanBeChosen(st, t, k) ==>
      (t < u ==>
         var key := (st.hist.ballots[(q, u)], u);
         key in st.hist.candLog && HoldsUpto(st.hist.candLog[key], st.hist.lead.leaderLog[t], k))
  }

  ghost predicate VotesSafe(st: Cluster) {
    forall q, u :: (q, u) in st.hist.ballots ==> SafeVote(st, q, u)
  }

  /** What can be chosen is held by every later leader. */
  ghost predicate LeadersSafe(st: Cluster) {
    forall t: nat, u: nat, k: int :: t in st.hist.lead.leaderOf && u in st.hist.lead.leaderOf && CanBeChosen(st, t, k) ==>
      (t < u ==> u in st.hist.lead.leaderLog &&
                 HoldsUpto(st.hist.lead.leaderLog[u], st.hist.lead.leaderLog[t], k))
  }

  ghost predicate ChoiceInv(st: Cluster) {
    AckedOk(st) && CandidatesOk(st) && VotesSafe(st) && LeadersSafe(st)
  }

  // ---------- what can be chosen only shrinks, what is chosen stays ----------

  /** Every step: terms rise, leader logs grow, and a server takes over only in a term it is not past. */
  ghost predicate Advances(st: Cluster, st': Cluster) {
    && |st'.servers| == |st.servers|
    && (forall i: nat :: i < |st.servers| ==> st.servers[i].currentTerm <= st'.servers[i].currentTerm)
    && Grows(st.hist.lead, st'.hist.lead)
    && (forall q, t :: (q, t) in st.hist.acked ==>
          (q, t) in st'.hist.acked && st.hist.acked[(q, t)] <= st'.hist.acked[(q, t)])
    && (forall q, t :: (q, t) in st'.hist.acked ==>
          || ((q, t) in st.hist.acked && st.hist.acked[(q, t)] == st'.hist.acked[(q, t)])
          || (q < |st.servers| && st.servers[q].currentTerm <= t))
  }

  lemma ChosenStays(st: Cluster, st': Cluster, t: nat, k: int)
    requires Advances(st, st') && Chosen(st, t, k)
    ensures Chosen(st', t, k)
  {
    SubsetIsSmaller(Holders(st, t, k), Holders(st', t, k));
  }

  lemma ChoiceShrinks(st: Cluster, st': Cluster, t: nat, k: int)
    requires Advances(st, st') && OwnEntry(st.hist.lead, t, k) && CanBeChosen(st', t, k)
    ensures CanBeChosen(st, t, k)
  {
    SubsetIsSmaller(Able(st', t, k), Able(st, t, k));
  }

  lemma ChosenCanBe(st: Cluster, t: nat, k: int)
    requires Chosen(st, t, k)
    ensures CanBeChosen(st, t, k)
  {
    SubsetIsSmaller(Holders(st, t, k), Able(st, t, k));
  }

  // ---------- the two arguments of the paper ----------

  lemma LeadersSafeAt(st: Cluster, t: nat, u: nat, k: int)
    requires LeadersSafe(st) && LeaderLogsOk(st.hist.lead) && CanBeChosen(st, t, k) && t < u
    requires u in st.hist.lead.leaderLog
    ensures HoldsUpto(st.hist.lead.leaderLog[u], st.hist.lead.leaderLog[t], k)
  {
    hide HoldsUpto, LeaderLogOk;
  }

  /** A later leader held an older entry at its election already, so whoever follows it holds it too. */
  lemma FollowerHolds(h: Leaders, s: nat, log: seq<LogRecord>, t: nat, k: int)
    requires LeaderLogsOk(h) && TakenFrom(h, s, log) && t < s && OwnEntry(h, t, k)
    requires HoldsUpto(h.leaderLog[s], h.leaderLog[t], k)
    ensures HoldsUpto(log, h.leaderLog[t], k)
  {
    assert LeaderLogOk(h, s);
  }

  /** A server that took over what can be chosen still holds it. */
  lemma TakerHolds(st: Cluster, q: nat, t: nat, k: int)
    requires LeaderLogsOk(st.hist.lead) && ServerLogsOk(st) && AckedOk(st) && LeadersSafe(st)
    requires Took(st.hist.acked, q, t, k) && CanBeChosen(st, t, k)
    ensures q < |st.servers| && HoldsUpto(st.servers[q].log.records, st.hist.lead.leaderLog[t], k)
  {
    hide LeaderLogOk, LeadersSafe;
    var s := st.hist.source[q];
    assert ServerLogOk(st.hist.lead, st.servers[q], s);
    if t < s {
      LeadersSafeAt(st, t, s, k);
      FollowerHolds(st.hist.lead, s, st.servers[q].log.records, t, k);
    }
  }

  /** A candidate whose log is at least as up to date as a holder's log is a holder itself. */
  lemma UpToDateHolds(st: Cluster, q: nat, cand: seq<LogRecord>, u: nat, t: nat, k: int)
    requires LeaderLogsOk(st.hist.lead) && ServerLogsOk(st) && LeadersSafe(st) && q < |st.servers|
    requires CanBeChosen(st, t, k) && HoldsUpto(st.servers[q].log.records, st.hist.lead.leaderLog[t], k)
    requires StoodOk(st.hist.lead, u, cand) && st.servers[q].log.base == 0 && |st.servers[q].log.records| > 0
    requires !IsMoreUpToDate(st.servers[q], cand[|cand| - 1].term, |cand| - 1)
    ensures HoldsUpto(cand, st.hist.lead.leaderLog[t], k)
  {
    var h, log, w := st.hist.lead, st.servers[q].log.records, cand[|cand| - 1].term;
    assert ServerLogOk(h, st.servers[q], st.hist.source[q]);
    assert LeaderLogOk(h, st.hist.source[q]);
    var last := log[|log| - 1].term;
    assert t <= last <= w;
    if w == last {
      BackedByLeader(h, st.hist.source[q], log, |log| - 1);
    } else {
      assert HoldsUpto(h.leaderLog[w], h.leaderLog[t], k);
      assert LeaderLogOk(h, w);
    }
  }

  // ---------- what the steps keep ----------

  lemma LeadersSafeStays(st: Cluster, st': Cluster)
    requires LeadersSafe(st) && Advances(st, st') && st'.hist.lead == st.hist.lead
    ensures LeadersSafe(st')
  {
    hide Advances, HoldsUpto, Able;
    forall t: nat, u: nat, k: int | t in st'.hist.lead.leaderOf && u in st'.hist.lead.leaderOf && CanBeChosen(st', t, k) && t < u
      ensures u in st'.hist.lead.leaderLog && HoldsUpto(st'.hist.lead.leaderLog[u], st'.hist.lead.leaderLog[t], k)
    {
      ChoiceShrinks(st, st', t, k);
    }
  }

  lemma SafeVoteStays(st: Cluster, st': Cluster, q: nat, u: nat)
    requires AckedOk(st) && BallotsOk(st) && Advances(st, st') && (q, u) in st.hist.ballots && SafeVote(st, q, u)
    requires (q, u) in st'.hist.ballots && st'.hist.ballots[(q, u)] == st.hist.ballots[(q, u)]
    requires forall key :: key in st.hist.candLog ==>
               key in st'.hist.candLog && st'.hist.candLog[key] == st.hist.candLog[key]
    ensures SafeVote(st', q, u)
  {
    forall t: nat, k: int | Took(st'.hist.acked, q, t, k) && CanBeChosen(st', t, k) && t < u
      ensures var key := (st'.hist.ballots[(q, u)], u);
              key in st'.hist.candLog && HoldsUpto(st'.hist.candLog[key], st'.hist.lead.leaderLog[t], k)
    {
      OldTook(st, st', q, u, t, k);
      ChoiceShrinks(st, st', t, k);
      hide Advances, AckedOk, BallotsOk, CanBeChosen;
    }
  }

  /** What q took over in a term before its vote, it took over before that vote. */
  lemma OldTook(st: Cluster, st': Cluster, q: nat, u: nat, t: nat, k: int)
    requires AckedOk(st) && BallotsOk(st) && Advances(st, st') && (q, u) in st.hist.ballots && t < u
    requires Took(st'.hist.acked, q, t, k) && CanBeChosen(st', t, k)
    ensures Took(st.hist.acked, q, t, k) && OwnEntry(st.hist.lead, t, k)
    ensures HoldsUpto(st'.hist.lead.leaderLog[t], st.hist.lead.leaderLog[t], k)
  {
    assert (q, t) in st'.hist.acked;
    assert (q, t) in st.hist.acked;
  }

  lemma NewVoteSafe(st: Cluster, st': Cluster, q: nat, u: nat)
    requires LeaderLogsOk(st.hist.lead) && ServerLogsOk(st) && AckedOk(st) && LeadersSafe(st) && Advances(st, st')
    requires (q, u) in st'.hist.ballots && q < |st.servers| && st'.hist.acked == st.hist.acked
    requires st.servers[q].log.base == 0 && |st.servers[q].log.records| > 0
    requires var key := (st'.hist.ballots[(q, u)], u);
             && key in st'.hist.candLog && StoodOk(st.hist.lead, u, st'.hist.candLog[key])
             && var cand := st'.hist.candLog[key];
                !IsMoreUpToDate(st.servers[q], cand[|cand| - 1].term, |cand| - 1)
    requires st'.hist.lead == st.hist.lead
    ensures SafeVote(st', q, u)
  {
    var cand := st'.hist.candLog[(st'.hist.ballots[(q, u)], u)];
    hide LeaderLogsOk, ServerLogsOk, LeadersSafe, IsMoreUpToDate, AckedOk;
    forall t: nat, k: int | Took(st'.hist.acked, q, t, k) && CanBeChosen(st', t, k) && t < u
      ensures HoldsUpto(cand, st'.hist.lead.leaderLog[t], k)
    {
      ChoiceShrinks(st, st', t, k);
      TakerHolds(st, q, t, k);
      UpToDateHolds(st, q, cand, u, t, k);
    }
  }

  // -- the steps that change no log --

  /** The terms rise and the logs stay. */
  ghost predicate OnlyQuiet(st: Cluster, i: nat, s': Server, st': Cluster) {
    && i < |st.servers| && st'.servers == st.servers[i := s']
    && s'.log.records == st.servers[i].log.records && s'.currentTerm >= st.servers[i].currentTerm
    && st'.hist.lead == st.hist.lead && st'.hist.source == st.hist.source
    && st'.hist.acked == st.hist.acked && st'.hist.lastSeen == st.hist.lastSeen
    && st'.appendReqs == st.appendReqs && st'.clock == st.clock
  }

  lemma QuietAdvances(st: Cluster, i: nat, s': Server, st': Cluster)
    requires OnlyQuiet(st, i, s', st')
    ensures Advances(st, st')
  {
    SameGrows(st.hist.lead);
    hide Grows;
  }

  lemma QuietChoice(st: Cluster, i: nat, s': Server, st': Cluster)
    requires OnlyQuiet(st, i, s', st') && AckedOk(st) && LeadersSafe(st)
    ensures AckedOk(st') && LeadersSafe(st')
  {
    QuietAdvances(st, i, s', st');
    LeadersSafeStays(st, st');
    hide LeadersSafe;
  }

  lemma VotesStay(st: Cluster, st': Cluster)
    requires AckedOk(st) && BallotsOk(st) && VotesSafe(st) && Advances(st, st')
    requires st'.hist.ballots == st.hist.ballots && st'.hist.candLog == st.hist.candLog
    ensures VotesSafe(st')
  {
    hide AckedOk, BallotsOk, Advances, SafeVote;
    forall q, u | (q, u) in st'.hist.ballots ensures SafeVote(st', q, u) {
      SafeVoteStays(st, st', q, u);
    }
  }

  // -- a candidacy --

  lemma LogStands(h: Leaders, source: nat, log: seq<LogRecord>, u: nat)
    requires LeaderLogsOk(h) && TakenFrom(h, source, log) && source < u
    ensures StoodOk(h, u, log)
  {
    BackedByLeader(h, source, log, |log| - 1);
  }

  ghost predicate Stands(st: Cluster, i: nat, s': Server, st': Cluster) {
    && OnlyQuiet(st, i, s', st')
    && s'.currentTerm == st.servers[i].currentTerm + 1 && s'.role == Candidate
    && st'.hist.ballots == st.hist.ballots[(i, s'.currentTerm) := i]
    && st'.hist.candLog == st.hist.candLog[(i, s'.currentTerm) := s'.log.records]
    && st'.voteReqs == st.voteReqs
  }

  lemma TimeoutStands(st: Cluster, i: nat)
    requires i < |st.servers| && st.servers[i].role != Leader && st.servers[i].me == i
    ensures Stands(st, i, ElectionTimeout(st.servers[i]), DoTimeout(st, i))
  {
  }

  lemma StandCandidates(st: Cluster, i: nat, s': Server, st': Cluster)
    requires CandidatesOk(st) && Stands(st, i, s', st') && StoodOk(st.hist.lead, s'.currentTerm, s'.log.records)
    ensures CandidatesOk(st')
  {
    hide StoodOk;
  }

  lemma StandVotes(st: Cluster, i: nat, s': Server, st': Cluster)
    requires Stands(st, i, s', st') && StoodOk(st.hist.lead, s'.currentTerm, s'.log.records)
    requires LeaderLogsOk(st.hist.lead) && ServerLogsOk(st) && ServerOk(st.servers[i], i, |st.servers|)
    requires BallotsOk(st) && CandidatesOk(st) && AckedOk(st) && LeadersSafe(st) && VotesSafe(st)
    ensures VotesSafe(st')
  {
    hide LeaderLogsOk, ServerLogsOk, AckedOk, LeadersSafe, SafeVote, Advances, Persisted;
    var u := s'.currentTerm;
    QuietAdvances(st, i, s', st');
    NewVoteSafe(st, st', i, u);
    forall q, t | (q, t) in st'.hist.ballots ensures SafeVote(st', q, t) {
      if (q, t) != (i, u) {
        SafeVoteStays(st, st', q, t);
      }
    }
  }

  lemma ChoiceTimeout(st: Cluster, i: nat)
    requires ElectionInv(st) && LogInv(st) && ChoiceInv(st) && i < |st.servers| && st.servers[i].role != Leader
    ensures ChoiceInv(DoTimeout(st, i)) && Advances(st, DoTimeout(st, i))
  {
    hide BallotsOk, VotesOk, VoteMessagesOk, CountedOk, LeadersOk, LeaderLogsOk, AppendMessagesOk;
    hide AckedOk, CandidatesOk, VotesSafe, LeadersSafe, Stands, DoTimeout, ElectionTimeout, Advances, StoodOk;
    var s, s', st' := st.servers[i], ElectionTimeout(st.servers[i]), DoTimeout(st, i);
    TimeoutStands(st, i);
    LogStands(st.hist.lead, st.hist.source[i], s.log.records, s.currentTerm + 1);
    StandIsQuiet(st, i, s', st');
    QuietAdvances(st, i, s', st');
    QuietChoice(st, i, s', st');
    StandCandidates(st, i, s', st');
    StandVotes(st, i, s', st');
  }

  lemma StandIsQuiet(st: Cluster, i: nat, s': Server, st': Cluster)
    requires Stands(st, i, s', st')
    ensures OnlyQuiet(st, i, s', st') && s'.currentTerm == st.servers[i].currentTerm + 1
  {
  }

  // -- the requests of an election, replies that elect no one, crashes and the apply loop --

  ghost predicate KeepsCandidates(st: Cluster, s: Server, s': Server, st': Cluster) {
    && (s'.role == Candidate ==> s.role == Candidate && s'.currentTerm == s.currentTerm)
    && st'.hist.ballots == st.hist.ballots && st'.hist.candLog == st.hist.candLog
    && (forall m :: m in st'.voteReqs && m !in st.voteReqs ==>
          && s.role == Candidate && m.args.candidateId == s.me && m.args.term == s.currentTerm
          && m.args.lastLogIndex == |s.log.records| - 1 >= 0
          && m.args.lastLogTerm == s.log.records[m.args.lastLogIndex].term)
  }

  lemma QuietCandidates(st: Cluster, i: nat, s': Server, st': Cluster)
    requires CandidatesOk(st) && OnlyQuiet(st, i, s', st') && st.servers[i].me == i
    requires KeepsCandidates(st, st.servers[i], s', st')
    ensures CandidatesOk(st')
  {
    hide StoodOk;
  }

  predicate IsVoting(st: Cluster, step: Step)
    requires Enabled(st, step)
  {
    (step.Timeout? && st.servers[step.i].role != Leader) || step.Vote?
  }

  lemma QuietKeepsCandidates(st: Cluster, step: Step)
    requires Enabled(st, step) && Defined(st, step) && IsQuiet(st, step) && !IsVoting(st, step)
    requires Actor(step) < |st.servers| && ServerOk(st.servers[Actor(step)], Actor(step), |st.servers|)
    ensures var st' := Apply(st, step);
            |st'.servers| == |st.servers| && KeepsCandidates(st, st.servers[Actor(step)], st'.servers[Actor(step)], st')
  {
  }

  lemma QuietIsQuiet(st: Cluster, step: Step)
    requires Enabled(st, step) && Defined(st, step) && IsQuiet(st, step)
    requires Actor(step) < |st.servers| && ServerOk(st.servers[Actor(step)], Actor(step), |st.servers|)
    ensures var st' := Apply(st, step);
            |st'.servers| == |st.servers| && OnlyQuiet(st, Actor(step), st'.servers[Actor(step)], st')
  {
    QuietServer(st, step);
    hide Apply, IsQuiet, Enabled, Defined;
  }

  lemma ChoiceQuiet(st: Cluster, step: Step)
    requires ElectionInv(st) && ChoiceInv(st)
    requires Enabled(st, step) && Defined(st, step) && IsQuiet(st, step) && !IsVoting(st, step)
    ensures ChoiceInv(Apply(st, step)) && Advances(st, Apply(st, step))
  {
    hide BallotsOk, VotesOk, VoteMessagesOk, CountedOk, LeadersOk, Enabled, Defined, IsQuiet, IsVoting, Apply;
    hide AckedOk, CandidatesOk, VotesSafe, LeadersSafe, OnlyQuiet, KeepsCandidates, Advances;
    var i, st' := Actor(step), Apply(st, step);
    ActorExists(st, step);
    QuietIsQuiet(st, step);
    QuietKeepsCandidates(st, step);
    QuietAdvances(st, i, st'.servers[i], st');
    QuietChoice(st, i, st'.servers[i], st');
    QuietCandidates(st, i, st'.servers[i], st');
    KeptBallots(st, st.servers[i], st'.servers[i], st');
    VotesStay(st, st');
  }

  lemma KeptBallots(st: Cluster, s: Server, s': Server, st': Cluster)
    requires KeepsCandidates(st, s, s', st')
    ensures st'.hist.ballots == st.hist.ballots && st'.hist.candLog == st.hist.candLog
  {
  }

  // -- a vote --

  /** Server q, having become s', voted in u for a candidate whose log was at least as up to date as its own. */
  ghost predicate Votes(st: Cluster, q: nat, s': Server, c: nat, u: nat, st': Cluster) {
    && OnlyQuiet(st, q, s', st') && (s'.role == Candidate ==> st.servers[q].role == Candidate && s'.currentTerm == st.servers[q].currentTerm)
    && st'.voteReqs <= st.voteReqs && st'.hist.candLog == st.hist.candLog
    && (c, u) in st.hist.candLog && |st.servers[q].log.records| > 0
    && (|| st'.hist.ballots == st.hist.ballots
        || (&& (q, u) !in st.hist.ballots && st'.hist.ballots == st.hist.ballots[(q, u) := c]
            && var cand := st.hist.candLog[(c, u)];
               |cand| > 0 && !IsMoreUpToDate(st.servers[q], cand[|cand| - 1].term, |cand| - 1)))
  }

  lemma VoteVotes(st: Cluster, m: VoteReqMsg)
    requires m in st.voteReqs && m.to < |st.servers| && ServersOk(st) && BallotsOk(st) && CandidatesOk(st)
    requires m.args.candidateId < |st.servers|
    ensures Votes(st, m.to, HandleVote(st.servers[m.to], m.args).0, m.args.candidateId, m.args.term, DoVote(st, m))
  {
    hide StoodOk;
    VoteEffect(st, m);
    assert HandleVote(st.servers[m.to], m.args).1.voteGranted ==>
             !IsMoreUpToDate(st.servers[m.to], m.args.lastLogTerm, m.args.lastLogIndex);
  }

  lemma VoteCandidates(st: Cluster, q: nat, s': Server, c: nat, u: nat, st': Cluster)
    requires CandidatesOk(st) && Votes(st, q, s', c, u, st')
    ensures CandidatesOk(st')
  {
    hide StoodOk, IsMoreUpToDate;
  }

  lemma VoteSafe(st: Cluster, q: nat, s': Server, c: nat, u: nat, st': Cluster)
    requires Votes(st, q, s', c, u, st') && ServerOk(st.servers[q], q, |st.servers|)
    requires LeaderLogsOk(st.hist.lead) && ServerLogsOk(st)
    requires BallotsOk(st) && CandidatesOk(st) && AckedOk(st) && LeadersSafe(st) && VotesSafe(st)
    ensures VotesSafe(st')
  {
    hide LeaderLogsOk, ServerLogsOk, BallotsOk, AckedOk, LeadersSafe, SafeVote, Advances, Persisted, IsMoreUpToDate, StoodOk;
    QuietAdvances(st, q, s', st');
    if st'.hist.ballots != st.hist.ballots {
      NewVoteSafe(st, st', q, u);
    }
    forall v, t | (v, t) in st'.hist.ballots ensures SafeVote(st', v, t) {
      if (v, t) in st.hist.ballots {
        SafeVoteStays(st, st', v, t);
      }
    }
  }

  lemma ChoiceVote(st: Cluster, m: VoteReqMsg)
    requires ElectionInv(st) && LogInv(st) && ChoiceInv(st) && m in st.voteReqs && m.to < |st.servers|
    ensures ChoiceInv(DoVote(st, m)) && Advances(st, DoVote(st, m))
  {
    hide BallotsOk, VotesOk, CountedOk, LeadersOk, LeaderLogsOk, ServerLogsOk, AppendMessagesOk, Persisted;
    hide AckedOk, CandidatesOk, VotesSafe, LeadersSafe, Votes, HandleVote, Advances;
    var s', st' := HandleVote(st.servers[m.to], m.args).0, DoVote(st, m);
    hide DoVote;
    VoteVotes(st, m);
    VotesIsQuiet(st, m.to, s', m.args.candidateId, m.args.term, st');
    QuietAdvances(st, m.to, s', st');
    QuietChoice(st, m.to, s', st');
    VoteCandidates(st, m.to, s', m.args.candidateId, m.args.term, st');
    VoteSafe(st, m.to, s', m.args.candidateId, m.args.term, st');
  }

  lemma VotesIsQuiet(st: Cluster, q: nat, s': Server, c: nat, u: nat, st': Cluster)
    requires Votes(st, q, s', c, u, st')
    ensures OnlyQuiet(st, q, s', st')
  {
  }

  // -- a new leader --

  /** Server i, with a quorum of ballots for its term, has become the leader of that term. */
  ghost predicate Leads(st: Cluster, i: nat, s': Server, q: set<nat>, st': Cluster) {
    && i < |st.servers| && |st.hist.source| == |st.servers|
    && var s := st.servers[i];
    && st'.servers == st.servers[i := s'] && s'.log == s.log && s'.currentTerm == s.currentTerm
    && s.role == Candidate && s'.role == Leader && |s.log.records| > 0
    && IsQuorum(q, |st.servers|)
    && (forall v :: v in q ==> VotedFor(st.hist.ballots, v, s.currentTerm, i))
    && Elected(st.hist.lead, st'.hist.lead, i, s.currentTerm, s.log.records)
    && st'.hist.source == st.hist.source[i := s.currentTerm]
    && st'.hist.acked == st.hist.acked[(i, s.currentTerm) := |s.log.records|]
    && st'.hist.lastSeen == st.hist.lastSeen && st'.appendReqs == st.appendReqs && st'.clock == st.clock
    && st'.hist.ballots == st.hist.ballots && st'.hist.candLog == st.hist.candLog && st'.voteReqs == st.voteReqs
  }

  lemma WinLeads(st: Cluster, m: VoteRepMsg)
    requires ElectionInv(st) && Enabled(st, VoteBack(m)) && OwnTermVote(st, VoteBack(m)) && Wins(st, m)
    ensures Defined(st, VoteBack(m))
    ensures Leads(st, m.to, HandleVoteReply(st.servers[m.to], m.election, m.reply), NewCount(st, m), DoVoteBack(st, m))
  {
    assert |st.hist.source| == |st.servers|;
    hide ElectionInv, IsQuorum, NewCount, OwnTermVote;
    WinsInFreshTerm(st, m);
    WinIsElected(st, m);
    hide HandleVoteReply, DoVoteBack, ServerOk, Elected;
  }

  /** What the reply that wins does to the histories. */
  lemma WinIsElected(st: Cluster, m: VoteRepMsg)
    requires m.to < |st.servers| == |st.hist.source| && m.election in st.servers[m.to].votes
    requires (m.to, m.election) in st.hist.counted && Wins(st, m)
    requires var s := st.servers[m.to];
             ServerOk(s, m.to, |st.servers|) && s.role == Candidate && s.currentTerm !in st.hist.lead.leaderOf
    ensures var s, s', st' := st.servers[m.to], HandleVoteReply(st.servers[m.to], m.election, m.reply), DoVoteBack(st, m);
            && st'.servers == st.servers[m.to := s'] && s'.log == s.log && s'.currentTerm == s.currentTerm
            && s'.role == Leader && |s.log.records| > 0
            && Elected(st.hist.lead, st'.hist.lead, m.to, s.currentTerm, s.log.records)
            && st'.hist.source == st.hist.source[m.to := s.currentTerm]
            && st'.hist.acked == st.hist.acked[(m.to, s.currentTerm) := |s.log.records|]
            && st'.hist.lastSeen == st.hist.lastSeen && st'.appendReqs == st.appendReqs && st'.clock == st.clock
            && st'.hist.ballots == st.hist.ballots && st'.hist.candLog == st.hist.candLog && st'.voteReqs == st.voteReqs
  {
    VoteReplyLogs(st.servers[m.to], m.election, m.reply);
    hide HandleVoteReply, Persisted;
  }

  lemma LeadAdvances(st: Cluster, i: nat, s': Server, q: set<nat>, st': Cluster)
    requires Leads(st, i, s', q, st') && AckedOk(st) && LeaderLogsOk(st.hist.lead)
    ensures Advances(st, st')
  {
    hide LeaderLogOk, IsQuorum;
  }

  lemma LeadAcked(st: Cluster, i: nat, s': Server, q: set<nat>, st': Cluster)
    requires Leads(st, i, s', q, st') && ServerLogsOk(st) && LeaderLogsOk(st.hist.lead)
    requires AckedOk(st) && AppendMessagesOk(st)
    ensures AckedOk(st')
  {
    hide LeaderLogOk, IsQuorum, TakenFrom;
    assert ServerLogOk(st.hist.lead, st.servers[i], st.hist.source[i]);
  }

  lemma StoodGrows(h: Leaders, h': Leaders, u: nat, log: seq<LogRecord>)
    requires StoodOk(h, u, log) && Grows(h, h')
    ensures StoodOk(h', u, log)
  {
  }

  lemma CandidatesGrow(st: Cluster, i: nat, s': Server, st': Cluster)
    requires CandidatesOk(st) && Grows(st.hist.lead, st'.hist.lead)
    requires i < |st.servers| && st'.servers == st.servers[i := s'] && s'.currentTerm >= st.servers[i].currentTerm
    requires s'.role != Candidate
    requires st'.hist.ballots == st.hist.ballots && st'.hist.candLog == st.hist.candLog && st'.voteReqs == st.voteReqs
    ensures CandidatesOk(st')
  {
    hide StoodOk, Grows;
    forall key | key in st'.hist.candLog ensures StoodOk(st'.hist.lead, key.1, st'.hist.candLog[key]) {
      assert (key.0, key.1) in st.hist.candLog;
      StoodGrows(st.hist.lead, st'.hist.lead, key.1, st.hist.candLog[key]);
    }
  }

  /** A voter of the new leader's that is able to choose has taken over, and so the new leader holds it. */
  lemma NewLeaderHolds(st: Cluster, i: nat, s': Server, q: set<nat>, st': Cluster, t: nat, k: int)
    requires Leads(st, i, s', q, st') && BallotsOk(st) && CandidatesOk(st) && VotesSafe(st)
    requires t < s'.currentTerm && CanBeChosen(st, t, k) && CanBeChosen(st', t, k)
    ensures HoldsUpto(s'.log.records, st.hist.lead.leaderLog[t], k)
  {
    hide HoldsUpto, StoodOk, Elected;
    var u := s'.currentTerm;
    var v := QuorumsMeet(q, Able(st', t, k), |st.servers|);
    assert VotedFor(st.hist.ballots, v, u, i);
    assert Took(st'.hist.acked, v, t, k);
    assert Took(st.hist.acked, v, t, k);
    assert SafeVote(st, v, u);
  }

  lemma NoOwnEntryYet(st: Cluster, i: nat, s': Server, q: set<nat>, st': Cluster, t: nat, k: int)
    requires Leads(st, i, s', q, st') && LeaderLogsOk(st.hist.lead) && ServerLogsOk(st)
    requires OwnEntry(st'.hist.lead, t, k)
    ensures t != s'.currentTerm && OwnEntry(st.hist.lead, t, k)
  {
    hide IsQuorum, LeaderLogOk;
    var source := st.hist.source[i];
    assert ServerLogOk(st.hist.lead, st.servers[i], source);
    if t == s'.currentTerm {
      BackedByLeader(st.hist.lead, source, s'.log.records, k);
    }
  }

  lemma LeadSafe(st: Cluster, i: nat, s': Server, q: set<nat>, st': Cluster)
    requires Leads(st, i, s', q, st') && LeaderLogsOk(st.hist.lead) && ServerLogsOk(st)
    requires BallotsOk(st) && AckedOk(st) && CandidatesOk(st) && VotesSafe(st) && LeadersSafe(st)
    ensures LeadersSafe(st')
  {
    hide BallotsOk, ServerLogsOk, AckedOk, CandidatesOk, VotesSafe, Advances, HoldsUpto, CanBeChosen, IsQuorum, LeaderLogOk;
    LeadAdvances(st, i, s', q, st');
    forall t: nat, u: nat, k: int | t in st'.hist.lead.leaderOf && u in st'.hist.lead.leaderOf && CanBeChosen(st', t, k) && t < u
      ensures u in st'.hist.lead.leaderLog && HoldsUpto(st'.hist.lead.leaderLog[u], st'.hist.lead.leaderLog[t], k)
    {
      CanOwn(st', t, k);
      NoOwnEntryYet(st, i, s', q, st', t, k);
      ChoiceShrinks(st, st', t, k);
      if u == s'.currentTerm {
        NewLeaderHolds(st, i, s', q, st', t, k);
      }
    }
  }

  lemma CanOwn(st: Cluster, t: nat, k: int)
    requires CanBeChosen(st, t, k)
    ensures OwnEntry(st.hist.lead, t, k)
  {
  }

  lemma ChoiceWin(st: Cluster, m: VoteRepMsg)
    requires ElectionInv(st) && LogInv(st) && ChoiceInv(st)
    requires Enabled(st, VoteBack(m)) && OwnTermVote(st, VoteBack(m)) && Wins(st, m)
    ensures Defined(st, VoteBack(m))
    ensures ChoiceInv(DoVoteBack(st, m)) && Advances(st, DoVoteBack(st, m))
  {
    hide BallotsOk, VotesOk, VoteMessagesOk, CountedOk, LeadersOk, LeaderLogsOk, ServerLogsOk, AppendMessagesOk, ServerOk;
    hide AckedOk, CandidatesOk, VotesSafe, LeadersSafe, HandleVoteReply, Advances, Leads, NewCount, DoVoteBack;
    WinLeads(st, m);
    var i, s', q, st' := m.to, HandleVoteReply(st.servers[m.to], m.election, m.reply), NewCount(st, m), DoVoteBack(st, m);
    LeadAdvances(st, i, s', q, st');
    LeadAcked(st, i, s', q, st');
    LeadCandidates(st, i, s', q, st');
    LeadSafe(st, i, s', q, st');
    VotesStay(st, st');
  }

  lemma LeadCandidates(st: Cluster, i: nat, s': Server, q: set<nat>, st': Cluster)
    requires Leads(st, i, s', q, st') && CandidatesOk(st) && Advances(st, st')
    ensures CandidatesOk(st') && st'.hist.ballots == st.hist.ballots && st'.hist.candLog == st.hist.candLog
  {
    hide IsQuorum, Grows, StoodOk;
    CandidatesGrow(st, i, s', st');
  }

  // -- a client's command --

  /** The leader i has appended to its log. */
  ghost predicate Extends(st: Cluster, i: nat, s': Server, st': Cluster) {
    && i < |st.servers|
    && var s := st.servers[i];
    && st'.servers == st.servers[i := s'] && s'.currentTerm == s.currentTerm && s.role == s'.role == Leader
    && s.currentTerm in st.hist.lead.leaderOf && st.hist.lead.leaderOf[s.currentTerm] == i
    && Appended(st.hist.lead, st'.hist.lead, s.currentTerm, s'.log.records)
    && st'.hist.source == st.hist.source
    && st'.hist.acked == st.hist.acked[(i, s.currentTerm) := |s'.log.records|]
    && st'.hist.lastSeen == st.hist.lastSeen && st'.appendReqs == st.appendReqs && st'.clock == st.clock
    && st'.hist.ballots == st.hist.ballots && st'.hist.candLog == st.hist.candLog && st'.voteReqs == st.voteReqs
  }

  lemma ClientExtends(st: Cluster, i: nat, op: Op)
    requires ElectionInv(st) && LogInv(st) && i < |st.servers| && st.servers[i].role == Leader
    ensures Extends(st, i, Start(st.servers[i], op), DoClient(st, i, op))
  {
    hide LeaderLogsOk, AppendMessagesOk, BallotsOk, CountedOk, VotesOk, VoteMessagesOk;
    assert ServerLogOk(st.hist.lead, st.servers[i], st.hist.source[i]);
    assert ServerOk(st.servers[i], i, |st.servers|);
  }

  lemma ExtendAdvances(st: Cluster, i: nat, s': Server, st': Cluster)
    requires Extends(st, i, s', st') && AckedOk(st)
    ensures Advances(st, st')
  {
  }

  lemma ExtendAcked(st: Cluster, i: nat, s': Server, st': Cluster)
    requires Extends(st, i, s', st') && ServerLogsOk(st) && AckedOk(st)
    ensures AckedOk(st')
  {
    hide TakenFrom;
    assert ServerLogOk(st.hist.lead, st.servers[i], st.hist.source[i]);
  }

  /** Once a later leader is elected, what this leader still appends cannot be chosen. */
  lemma LateEntry(st: Cluster, i: nat, s': Server, st': Cluster, u: nat, k: int)
    requires Extends(st, i, s', st') && BallotsOk(st) && CountedOk(st) && LeadersOk(st) && AckedOk(st)
    requires u in st.hist.lead.leaderOf && s'.currentTerm < u && k >= |st.hist.lead.leaderLog[s'.currentTerm]|
    ensures !CanBeChosen(st', s'.currentTerm, k)
  {
    var t := s'.currentTerm;
    if CanBeChosen(st', t, k) {
      var c := st.hist.lead.leaderOf[u];
      var v := QuorumsMeet(st.hist.counted[(c, u)], Able(st', t, k), |st.servers|);
      assert false;
    }
  }

  lemma ExtendSafe(st: Cluster, i: nat, s': Server, st': Cluster)
    requires Extends(st, i, s', st') && BallotsOk(st) && CountedOk(st) && LeadersOk(st) && AckedOk(st)
    requires LeadersSafe(st)
    ensures LeadersSafe(st')
  {
    hide BallotsOk, CountedOk, LeadersOk, AckedOk, Advances, IsQuorum, Able;
    ExtendAdvances(st, i, s', st');
    forall t: nat, u: nat, k: int | t in st'.hist.lead.leaderOf && u in st'.hist.lead.leaderOf && CanBeChosen(st', t, k) && t < u
      ensures u in st'.hist.lead.leaderLog && HoldsUpto(st'.hist.lead.leaderLog[u], st'.hist.lead.leaderLog[t], k)
    {
      CanOwn(st', t, k);
      if t == s'.currentTerm && k >= |st.hist.lead.leaderLog[t]| {
        LateEntry(st, i, s', st', u, k);
      } else {
        ChoiceShrinks(st, st', t, k);
      }
    }
  }

  lemma ChoiceClient(st: Cluster, i: nat, op: Op)
    requires ElectionInv(st) && LogInv(st) && ChoiceInv(st) && i < |st.servers| && st.servers[i].role == Leader
    ensures ChoiceInv(DoClient(st, i, op)) && Advances(st, DoClient(st, i, op))
  {
    hide BallotsOk, VotesOk, VoteMessagesOk, CountedOk, LeadersOk, LeaderLogsOk, ServerLogsOk, AppendMessagesOk, ServersOk;
    hide AckedOk, CandidatesOk, VotesSafe, LeadersSafe, Advances, Extends, DoClient, Start;
    var s', st' := Start(st.servers[i], op), DoClient(st, i, op);
    ClientExtends(st, i, op);
    ExtendAdvances(st, i, s', st');
    ExtendAcked(st, i, s', st');
    ExtendCandidates(st, i, s', st');
    ExtendSafe(st, i, s', st');
    VotesStay(st, st');
  }

  lemma ExtendCandidates(st: Cluster, i: nat, s': Server, st': Cluster)
    requires Extends(st, i, s', st') && CandidatesOk(st) && Advances(st, st')
    ensures CandidatesOk(st') && st'.hist.ballots == st.hist.ballots && st'.hist.candLog == st.hist.candLog
  {
    hide Grows, StoodOk;
    CandidatesGrow(st, i, s', st');
  }

  // -- replication --

  /** The leader i has sent its whole suffix to some peers. */
  ghost predicate Sends(st: Cluster, i: nat, s': Server, st': Cluster) {
    && OnlyQuiet(st, i, s', st'.(appendReqs := st.appendReqs, clock := st.clock))
    && s'.role == st.servers[i].role == Leader && s'.currentTerm == st.servers[i].currentTerm
    && st.appendReqs <= st'.appendReqs && st'.clock == st.clock + 1
    && (forall m :: m in st'.appendReqs && m !in st.appendReqs ==>
          m.args.term == s'.currentTerm && Total(m.args) == |s'.log.records| && m.sentAt == st.clock)
    && st'.hist.ballots == st.hist.ballots && st'.hist.candLog == st.hist.candLog && st'.voteReqs == st.voteReqs
  }

  lemma ReplicateSends(st: Cluster, i: nat, term: nat)
    requires ElectionInv(st) && LogInv(st) && i < |st.servers| && !ContextLost(st.servers[i], Leader, term)
    ensures CanReplicate(st.servers[i])
    ensures Sends(st, i, StartReplication(st.servers[i], term), DoReplicate(st, i, term))
  {
    hide ServerOk, BallotsOk, CountedOk, VotesOk, VoteMessagesOk, LeadersOk;
    hide LogInv, ServerLogOk, ArgsOk, ReplicationMessage, CanReplicate;
    LogRequests(st, i, term);
  }

  lemma ChoiceReplicate(st: Cluster, i: nat, term: nat)
    requires ElectionInv(st) && LogInv(st) && ChoiceInv(st) && i < |st.servers| && !ContextLost(st.servers[i], Leader, term)
    ensures CanReplicate(st.servers[i])
    ensures ChoiceInv(DoReplicate(st, i, term)) && Advances(st, DoReplicate(st, i, term))
  {
    hide BallotsOk, VotesOk, VoteMessagesOk, CountedOk, LeadersOk, LeaderLogsOk, ServerLogsOk, AppendMessagesOk;
    hide AckedOk, CandidatesOk, VotesSafe, LeadersSafe, Advances, Sends, DoReplicate, CanReplicate;
    ReplicateSends(st, i, term);
    var s', st' := StartReplication(st.servers[i], term), DoReplicate(st, i, term);
    SendQuiet(st, i, s', st');
    VotesStay(st, st');
  }

  lemma SendQuiet(st: Cluster, i: nat, s': Server, st': Cluster)
    requires Sends(st, i, s', st') && AckedOk(st) && CandidatesOk(st) && LeadersSafe(st)
    ensures Advances(st, st') && AckedOk(st') && CandidatesOk(st') && LeadersSafe(st')
    ensures st'.hist.ballots == st.hist.ballots && st'.hist.candLog == st.hist.candLog
  {
    hide LeadersSafe, StoodOk, Grows;
    SameGrows(st.hist.lead);
    LeadersSafeStays(st, st');
  }

  // -- an append request --

  /** Server m.to has accepted the request, which reaches far enough, or has rejected it. */
  ghost predicate Takes(st: Cluster, m: AppendReqMsg, s': Server, ok: bool, st': Cluster) {
    && m.to < |st.servers| == |st.hist.source| && m in st.appendReqs
    && var key := (m.to, m.args.term);
    && st'.servers == st.servers[m.to := s'] && s'.currentTerm >= st.servers[m.to].currentTerm
    && (s'.role == Candidate ==> s' == st.servers[m.to])
    && st'.hist.lead == st.hist.lead && st'.appendReqs == st.appendReqs && st'.clock == st.clock
    && st'.hist.ballots == st.hist.ballots && st'.hist.candLog == st.hist.candLog && st'.voteReqs == st.voteReqs
    && (!ok ==> s'.log.records == st.servers[m.to].log.records && st'.hist == st.hist)
    && (ok ==>
          && st.servers[m.to].currentTerm <= m.args.term && |s'.log.records| == Total(m.args)
          && m.args.term in st.hist.lead.leaderOf && m.to != st.hist.lead.leaderOf[m.args.term]
          && m.args.term in st.hist.lead.leaderLog && 1 <= Total(m.args) <= |st.hist.lead.leaderLog[m.args.term]|
          && (key in st.hist.acked ==> st.hist.acked[key] <= Total(m.args))
          && st'.hist.source == st.hist.source[m.to := m.args.term]
          && st'.hist.acked == st.hist.acked[key := Total(m.args)]
          && st'.hist.lastSeen == st.hist.lastSeen[key := m.sentAt])
  }

  lemma AppendTakes(st: Cluster, m: AppendReqMsg)
    requires ServersOk(st) && LogInv(st) && m in st.appendReqs && m.to < |st.servers| && Reaches(st, Append(m))
    ensures Defined(st, Append(m))
    ensures var (s', reply) := HandleAppend(st.servers[m.to], m.args);
            Takes(st, m, s', reply.success, DoAppend(st, m))
  {
    hide ServerLogOk, TakenFrom, Persisted, LeaderLogsOk, ConflictOk;
    var h, s := st.hist.lead, st.servers[m.to];
    LogAppendServer(h, s, st.hist.source[m.to], m.args);
  }

  lemma TakeAdvances(st: Cluster, m: AppendReqMsg, s': Server, ok: bool, st': Cluster)
    requires Takes(st, m, s', ok, st')
    ensures Advances(st, st')
  {
    SameGrows(st.hist.lead);
    hide Grows;
  }

  lemma TakeAcked(st: Cluster, m: AppendReqMsg, s': Server, ok: bool, st': Cluster)
    requires Takes(st, m, s', ok, st') && ServerLogsOk(st) && AckedOk(st)
    ensures AckedOk(st')
  {
    hide TakenFrom;
    assert ServerLogOk(st.hist.lead, st.servers[m.to], st.hist.source[m.to]);
  }

  lemma TakeCandidates(st: Cluster, m: AppendReqMsg, s': Server, ok: bool, st': Cluster)
    requires Takes(st, m, s', ok, st') && CandidatesOk(st)
    ensures CandidatesOk(st') && st'.hist.ballots == st.hist.ballots && st'.hist.candLog == st.hist.candLog
    ensures st'.hist.lead == st.hist.lead
  {
    hide StoodOk;
  }

  lemma ChoiceAppend(st: Cluster, m: AppendReqMsg, st': Cluster)
    requires ElectionInv(st) && LogInv(st) && ChoiceInv(st)
    requires Next(st, Append(m), st') && Reaches(st, Append(m))
    ensures ChoiceInv(st') && Advances(st, st')
  {
    hide BallotsOk, VotesOk, VoteMessagesOk, CountedOk, LeadersOk, LeaderLogsOk, ServerLogsOk, AppendMessagesOk, ServersOk;
    hide AckedOk, CandidatesOk, VotesSafe, LeadersSafe, Advances, Takes, DoAppend, HandleAppend;
    AppendTakes(st, m);
    var (s', reply) := HandleAppend(st.servers[m.to], m.args);
    TakeAdvances(st, m, s', reply.success, st');
    TakeAcked(st, m, s', reply.success, st');
    TakeCandidates(st, m, s', reply.success, st');
    LeadersSafeStays(st, st');
    VotesStay(st, st');
  }

  // -- an append reply, and every step --

  lemma AppendBackQuiet(st: Cluster, m: AppendRepMsg, st': Cluster)
    requires ServersOk(st) && Next(st, AppendBack(m), st')
    ensures var i := m.args.leaderId;
            OnlyQuiet(st, i, st'.servers[i], st') && KeepsCandidates(st, st.servers[i], st'.servers[i], st')
  {
    hide Persisted, BackUp, MajorityIndex, AdvanceCommit;
    var i := m.args.leaderId;
    var s, args := st.servers[i], m.args;
    if AppendReplyCounts(s, args, m.reply) && m.reply.success {
      var matched := args.prevLogIndex + |args.entries|;
      LogAdvance(s.(matchIndex := s.matchIndex[m.from := matched], nextIndex := s.nextIndex[m.from := matched + 1]));
    }
  }

  lemma ChoiceAppendBack(st: Cluster, m: AppendRepMsg, st': Cluster)
    requires ElectionInv(st) && ChoiceInv(st) && Next(st, AppendBack(m), st')
    ensures ChoiceInv(st') && Advances(st, st')
  {
    hide BallotsOk, VotesOk, VoteMessagesOk, CountedOk, LeadersOk, HandleAppendReply, CanHandleReply;
    hide AckedOk, CandidatesOk, VotesSafe, LeadersSafe, OnlyQuiet, KeepsCandidates, Advances;
    var i := m.args.leaderId;
    AppendBackQuiet(st, m, st');
    QuietAdvances(st, i, st'.servers[i], st');
    QuietChoice(st, i, st'.servers[i], st');
    QuietCandidates(st, i, st'.servers[i], st');
    KeptBallots(st, st.servers[i], st'.servers[i], st');
    VotesStay(st, st');
  }

  lemma KeepChoice(st: Cluster, step: Step, st': Cluster)
    requires ElectionInv(st) && LogInv(st) && ChoiceInv(st)
    requires Next(st, step, st') && OwnTermVote(st, step) && Reaches(st, step)
    ensures ChoiceInv(st') && Advances(st, st')
  {
    hide ElectionInv, LogInv, ChoiceInv, Advances, HandleVoteReply;
    if IsQuiet(st, step) && !IsVoting(st, step) {
      ChoiceQuiet(st, step);
    } else {
      match step
      case Timeout(i) => ChoiceTimeout(st, i);
      case Vote(m) => ChoiceVote(st, m);
      case VoteBack(m) => ChoiceWin(st, m);
      case Client(i, op) => ChoiceClient(st, i, op);
      case Replicate(i, term) => ChoiceReplicate(st, i, term);
      case Append(m) => ChoiceAppend(st, m, st');
      case AppendBack(m) => ChoiceAppendBack(st, m, st');
      case _ =>
    }
  }

  // ---------- whole runs ----------

  lemma InitialChoice(n: nat)
    ensures ChoiceInv(Initial(n))
  {
    var st := Initial(n);
    assert forall t, k :: !CanBeChosen(st, t, k);
  }

  lemma {:induction false} ChoiceInvHolds(states: seq<Cluster>, steps: seq<Step>, k: nat)
    requires Run(states, steps) && OwnTermVotes(states, steps) && AppendsReach(states, steps) && k < |states|
    ensures ElectionInv(states[k]) && LogInv(states[k]) && ChoiceInv(states[k])
  {
    hide ElectionInv, LogInv, ChoiceInv, OwnTermVote, Reaches;
    LogInvHolds(states, steps, k);
    if k == 0 {
      InitialChoice(|states[0].servers|);
    } else {
      ChoiceInvHolds(states, steps, k - 1);
      assert Next(states[k - 1], steps[k - 1], states[k - 1 + 1]);
      hide Next;
      KeepChoice(states[k - 1], steps[k - 1], states[k]);
    }
  }
}
