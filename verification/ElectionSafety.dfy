/**
 * Election Safety (section 5.2 of the extended Raft paper): no term ever has two leaders, over every run
 * with loss, delay, reordering, crashes and restarts whose counted votes belong to the candidate's term.
 */
module ElectionSafety {
  import opened FiniteSets
  import opened KvTypes
  import opened RaftLog
  import opened RaftServer
  import opened Majority
  import opened Cluster

  // ---------- the invariant ----------

  /** Memory and disk agree between steps, so a restart changes neither term, vote nor log. */
  predicate Persisted(s: Server) {
    if s.persister.state.Some? then s.persister.state.value == Disk(s.currentTerm, s.votedFor, s.log)
    else Disk(s.currentTerm, s.votedFor, s.log) == Disk(1, NO_VOTE, Log([DUMMY], 0))
  }

  predicate ServerOk(s: Server, i: nat, n: nat) {
    && s.me == i < n && s.peers == n
    && s.currentTerm >= 1
    && (s.votedFor == NO_VOTE || 0 <= s.votedFor < n)
    && s.log.base == 0 && |s.log.records| > 0
    && |s.nextIndex| == n && |s.matchIndex| == n
    && s.commitIndex >= 0 && s.lastApplied >= 0
    && Persisted(s)
  }

  ghost predicate ServersOk(st: Cluster) {
    forall i: nat :: i < |st.servers| ==> ServerOk(st.servers[i], i, |st.servers|)
  }

  /** A server's vote is the ballot of its current term; it has cast none in a later term. */
  ghost predicate BallotsOk(st: Cluster) {
    && (forall v, t :: (v, t) in st.hist.ballots ==> v < |st.servers| && t <= st.servers[v].currentTerm)
    && (forall v: nat :: v < |st.servers| ==>
          var s := st.servers[v];
          if s.votedFor == NO_VOTE then (v, s.currentTerm) !in st.hist.ballots
          else (v, s.currentTerm) in st.hist.ballots && st.hist.ballots[(v, s.currentTerm)] == s.votedFor)
  }

  ghost predicate VotedFor(ballots: map<(nat, nat), nat>, v: nat, term: nat, c: nat) {
    (v, term) in ballots && ballots[(v, term)] == c
  }

  /** Everyone counted for a candidate did vote for it in that election. */
  ghost predicate CountedOk(st: Cluster) {
    && (forall c, e :: (c, e) in st.hist.counted ==> c < |st.servers| && e <= st.servers[c].currentTerm)
    && (forall c, e, v :: (c, e) in st.hist.counted && v in st.hist.counted[(c, e)] ==>
          v < |st.servers| && VotedFor(st.hist.ballots, v, e, c))
  }

  ghost predicate CounterOk(s: Server, counted: map<(nat, nat), set<nat>>) {
    && (forall e :: e in s.votes ==> (s.me, e) in counted && s.votes[e] == |counted[(s.me, e)]|)
    && (forall e :: e in s.pending ==> (s.me, e) !in counted && e <= s.currentTerm)
  }

  /** A live vote counter counts each voter once. */
  ghost predicate VotesOk(st: Cluster) {
    forall i: nat :: i < |st.servers| ==> CounterOk(st.servers[i], st.hist.counted)
  }

  /** A voter still to answer, or whose answer is in flight, has not been counted. */
  ghost predicate VoteMessagesOk(st: Cluster) {
    && (forall m :: m in st.voteReqs ==>
          var key := (m.args.candidateId, m.args.term);
          m.args.candidateId < |st.servers| && key in st.hist.counted && m.to !in st.hist.counted[key])
    && (forall m :: m in st.voteReps ==>
          && m.from < |st.servers| && m.to < |st.servers|
          && (m.to, m.election) in st.hist.counted && m.from !in st.hist.counted[(m.to, m.election)]
          && (m.reply.voteGranted ==> VotedFor(st.hist.ballots, m.from, m.election, m.to)))
    && (forall m, r :: m in st.voteReqs && r in st.voteReps ==>
          !(m.to == r.from && m.args.candidateId == r.to && m.args.term == r.election))
    && (forall m, m' :: m in st.voteReqs && m' in st.voteReqs ==>
          (m.to == m'.to && m.args.candidateId == m'.args.candidateId && m.args.term == m'.args.term ==> m == m'))
    && (forall r, r' :: r in st.voteReps && r' in st.voteReps ==>
          (r.from == r'.from && r.to == r'.to && r.election == r'.election ==> r == r'))
  }

  /** The leader of a term was counted a quorum of that term's ballots. */
  ghost predicate LeadersOk(st: Cluster) {
    && (forall t :: t in st.hist.lead.leaderOf ==>
          var i := st.hist.lead.leaderOf[t];
          i < |st.servers| && 1 <= t <= st.servers[i].currentTerm &&
          (i, t) in st.hist.counted && IsQuorum(st.hist.counted[(i, t)], |st.servers|))
    && (forall i: nat :: i < |st.servers| ==>
          var s := st.servers[i];
          var leads := s.currentTerm in st.hist.lead.leaderOf && st.hist.lead.leaderOf[s.currentTerm] == i;
          && (s.role == Leader ==> leads)
          && (s.role == Candidate ==> !leads && s.votedFor == i))
  }

  ghost predicate ElectionInv(st: Cluster) {
    && |st.hist.source| == |st.servers|
    && ServersOk(st) && BallotsOk(st) && CountedOk(st) && VotesOk(st) && VoteMessagesOk(st) && LeadersOk(st)
  }

  // ---------- it holds at first and every step keeps it ----------

  lemma InitialElection(n: nat)
    ensures ElectionInv(Initial(n))
  {
  }


  // -- steps that cast no vote, count none and start no election --

  predicate StandsBack(s: Server, s': Server) {
    && s'.currentTerm >= s.currentTerm
    && s'.votedFor == (if s'.currentTerm == s.currentTerm then s.votedFor else NO_VOTE)
    && (s'.role == Follower || (s'.role == s.role && s'.currentTerm == s.currentTerm))
    && (s'.votes == s.votes || s'.votes == map[])
    && (s'.pending == s.pending || s'.pending == {})
  }

  /** Server i has become s', and no ballot, count, election or vote message is new. */
  ghost predicate OnlyStandsBack(st: Cluster, i: nat, s': Server, st': Cluster) {
    && i < |st.servers|
    && ServerOk(s', i, |st.servers|) && StandsBack(st.servers[i], s')
    && st'.servers == st.servers[i := s'] && st'.voteReqs == st.voteReqs && st'.voteReps <= st.voteReps
    && st'.hist.ballots == st.hist.ballots && st'.hist.counted == st.hist.counted
    && st'.hist.lead.leaderOf == st.hist.lead.leaderOf && |st'.hist.source| == |st.hist.source|
  }

  lemma BackBallots(st: Cluster, i: nat, s': Server, st': Cluster)
    requires BallotsOk(st) && CountedOk(st) && OnlyStandsBack(st, i, s', st')
    ensures BallotsOk(st') && CountedOk(st')
  {
  }

  lemma BackVotes(st: Cluster, i: nat, s': Server, st': Cluster)
    requires ServersOk(st) && VotesOk(st) && VoteMessagesOk(st) && OnlyStandsBack(st, i, s', st')
    ensures VotesOk(st') && VoteMessagesOk(st')
  {
  }

  lemma BackLeaders(st: Cluster, i: nat, s': Server, st': Cluster)
    requires LeadersOk(st) && OnlyStandsBack(st, i, s', st')
    ensures LeadersOk(st')
  {
  }

  lemma KeepStandingBack(st: Cluster, i: nat, s': Server, st': Cluster)
    requires ElectionInv(st) && OnlyStandsBack(st, i, s', st')
    ensures ElectionInv(st')
  {
    BackBallots(st, i, s', st');
    BackVotes(st, i, s', st');
    BackLeaders(st, i, s', st');
  }

  // -- a candidacy --

  lemma KeepTimeoutServers(st: Cluster, i: nat)
    requires i < |st.servers| && ServersOk(st)
    ensures ServersOk(DoTimeout(st, i))
  {
  }

  lemma KeepTimeoutBallots(st: Cluster, i: nat)
    requires i < |st.servers| && ServersOk(st) && BallotsOk(st) && CountedOk(st)
    ensures BallotsOk(DoTimeout(st, i)) && CountedOk(DoTimeout(st, i))
  {
  }

  lemma KeepTimeoutVotes(st: Cluster, i: nat)
    requires i < |st.servers| && ServersOk(st) && BallotsOk(st) && CountedOk(st) && VotesOk(st) && VoteMessagesOk(st)
    ensures VotesOk(DoTimeout(st, i)) && VoteMessagesOk(DoTimeout(st, i))
  {
  }

  lemma KeepTimeoutLeaders(st: Cluster, i: nat)
    requires i < |st.servers| && ServersOk(st) && LeadersOk(st)
    ensures LeadersOk(DoTimeout(st, i))
  {
  }

  lemma KeepTimeout(st: Cluster, i: nat)
    requires ElectionInv(st) && i < |st.servers|
    ensures ElectionInv(DoTimeout(st, i))
  {
    KeepTimeoutServers(st, i);
    KeepTimeoutBallots(st, i);
    KeepTimeoutVotes(st, i);
    KeepTimeoutLeaders(st, i);
  }

  // -- the requests of an election --

  lemma KeepElectBallots(st: Cluster, i: nat, term: nat)
    requires i < |st.servers| && term in st.servers[i].pending
    requires ServersOk(st) && BallotsOk(st) && CountedOk(st) && VotesOk(st) && LeadersOk(st)
    ensures |st.servers[i].log.records| > 0 && BallotsOk(DoElect(st, i, term)) && CountedOk(DoElect(st, i, term))
  {
    ElectServer(st.servers[i], i, |st.servers|, term);
    assert AsksVotes(st.servers[i], term) ==> VotedFor(st.hist.ballots, i, term, i);
    hide ServerOk, StartElection, VoteRequest, CounterOk, LeadersOk, VotesOk, ServersOk;
    ElectCounted(st, i, term, DoElect(st, i, term));
  }

  lemma ElectCounted(st: Cluster, i: nat, term: nat, st': Cluster)
    requires i < |st.servers| == |st'.servers| && BallotsOk(st) && CountedOk(st) && term <= st.servers[i].currentTerm
    requires forall j: nat :: j < |st.servers| ==>
               st'.servers[j].currentTerm == st.servers[j].currentTerm && st'.servers[j].votedFor == st.servers[j].votedFor
    requires st'.hist.ballots == st.hist.ballots
    requires st'.hist.counted == st.hist.counted
             || (VotedFor(st.hist.ballots, i, term, i) && st'.hist.counted == st.hist.counted[(i, term) := {i}])
    ensures BallotsOk(st') && CountedOk(st')
  {
  }

  /** What starting an election leaves of the candidate. */
  lemma ElectServer(s: Server, i: nat, n: nat, term: nat)
    requires ServerOk(s, i, n)
    ensures var s' := StartElection(s, term);
            && ServerOk(s', i, n) && s'.currentTerm == s.currentTerm && s'.votedFor == s.votedFor && s'.role == s.role
            && |s.log.records| > 0
  {
  }

  lemma KeepElectServers(st: Cluster, i: nat, term: nat)
    requires i < |st.servers| && ServersOk(st)
    ensures |st.servers[i].log.records| > 0 && ServersOk(DoElect(st, i, term))
  {
    ElectServer(st.servers[i], i, |st.servers|, term);
    hide ServerOk, StartElection, VoteRequest;
  }

  lemma KeepElectVotes(st: Cluster, i: nat, term: nat)
    requires i < |st.servers| && term in st.servers[i].pending && ServersOk(st) && VotesOk(st)
    ensures VotesOk(DoElect(st, i, term))
  {
  }

  lemma KeepElectMessages(st: Cluster, i: nat, term: nat)
    requires i < |st.servers| && term in st.servers[i].pending
    requires ServersOk(st) && VotesOk(st) && VoteMessagesOk(st)
    ensures VoteMessagesOk(DoElect(st, i, term))
  {
  }

  /** Who leads and who stands is as it was, and no count of an election is lost. */
  lemma SameLeaders(st: Cluster, st': Cluster)
    requires LeadersOk(st) && |st'.servers| == |st.servers| && st'.hist.lead == st.hist.lead
    requires forall i: nat :: i < |st.servers| ==>
               var s, s' := st.servers[i], st'.servers[i];
               s'.currentTerm == s.currentTerm && s'.role == s.role && s'.votedFor == s.votedFor
    requires forall key :: key in st.hist.counted ==> key in st'.hist.counted && st'.hist.counted[key] == st.hist.counted[key]
    ensures LeadersOk(st')
  {
    hide IsQuorum;
  }

  lemma KeepElectLeaders(st: Cluster, i: nat, term: nat)
    requires i < |st.servers| && term in st.servers[i].pending && ServersOk(st) && VotesOk(st) && LeadersOk(st)
    ensures |st.servers[i].log.records| > 0 && LeadersOk(DoElect(st, i, term))
  {
    hide LeadersOk;
    assert ServerOk(st.servers[i], i, |st.servers|) && CounterOk(st.servers[i], st.hist.counted);
    hide ServersOk, VotesOk;
    ElectServer(st.servers[i], i, |st.servers|, term);
    assert (i, term) !in st.hist.counted;
    hide ServerOk, CounterOk, StartElection, VoteRequest;
    SameLeaders(st, DoElect(st, i, term));
  }

  lemma KeepElect(st: Cluster, i: nat, term: nat)
    requires ElectionInv(st) && i < |st.servers| && term in st.servers[i].pending
    ensures ElectionInv(DoElect(st, i, term))
  {
    KeepElectServers(st, i, term);
    KeepElectBallots(st, i, term);
    KeepElectVotes(st, i, term);
    KeepElectMessages(st, i, term);
    KeepElectLeaders(st, i, term);
  }

  // -- a vote --

  /** What a vote leaves of the voter: a granted one is the voter's first in that term. */
  lemma VoteEffect(st: Cluster, m: VoteReqMsg)
    requires m.to < |st.servers| && ServersOk(st) && BallotsOk(st) && m.args.candidateId < |st.servers|
    ensures var s := st.servers[m.to];
            var (s', reply) := HandleVote(s, m.args);
            && ServerOk(s', m.to, |st.servers|)
            && s'.votes == s.votes && s'.pending == s.pending && s'.log == s.log
            && s'.currentTerm >= s.currentTerm
            && (reply.voteGranted ==>
                  && (m.to, m.args.term) !in st.hist.ballots
                  && s'.currentTerm == m.args.term && s'.votedFor == m.args.candidateId
                  && (s'.role == Follower || (s'.role == s.role != Candidate && s'.currentTerm == s.currentTerm)
                      || s.votedFor == NO_VOTE))
            && (!reply.voteGranted ==> StandsBack(s, s'))
  {
  }

  lemma KeepVoteBallots(st: Cluster, m: VoteReqMsg)
    requires m in st.voteReqs && m.to < |st.servers|
    requires ServersOk(st) && BallotsOk(st) && CountedOk(st) && VoteMessagesOk(st)
    ensures BallotsOk(DoVote(st, m)) && CountedOk(DoVote(st, m))
  {
    VoteEffect(st, m);
    assert |st.servers[m.to].log.records| > 0;
    hide HandleVote, ServerOk, VoteMessagesOk, ServersOk;
    VoteBallots(st, m);
    VoteCounted(st, m);
  }

  lemma VoteBallots(st: Cluster, m: VoteReqMsg)
    requires m.to < |st.servers| && |st.servers[m.to].log.records| > 0 && BallotsOk(st)
    requires var (s', reply) := HandleVote(st.servers[m.to], m.args);
             && s'.currentTerm >= st.servers[m.to].currentTerm
             && (reply.voteGranted ==> s'.currentTerm == m.args.term && s'.votedFor == m.args.candidateId)
             && (!reply.voteGranted ==> StandsBack(st.servers[m.to], s'))
    ensures BallotsOk(DoVote(st, m))
  {
    hide HandleVote;
  }

  lemma VoteCounted(st: Cluster, m: VoteReqMsg)
    requires m.to < |st.servers| && |st.servers[m.to].log.records| > 0 && CountedOk(st)
    requires var (s', reply) := HandleVote(st.servers[m.to], m.args);
             && s'.currentTerm >= st.servers[m.to].currentTerm
             && (reply.voteGranted ==> (m.to, m.args.term) !in st.hist.ballots)
    ensures CountedOk(DoVote(st, m))
  {
    hide HandleVote;
  }

  lemma KeepVoteServers(st: Cluster, m: VoteReqMsg)
    requires m in st.voteReqs && m.to < |st.servers| && ServersOk(st) && BallotsOk(st) && VoteMessagesOk(st)
    ensures |st.servers[m.to].log.records| > 0 && ServersOk(DoVote(st, m))
  {
    VoteEffect(st, m);
    hide HandleVote;
    assert |st.servers[m.to].log.records| > 0;
    hide ServerOk;
  }

  lemma KeepVoteMessages(st: Cluster, m: VoteReqMsg)
    requires m in st.voteReqs && m.to < |st.servers|
    requires ServersOk(st) && BallotsOk(st) && VotesOk(st) && VoteMessagesOk(st)
    ensures VotesOk(DoVote(st, m)) && VoteMessagesOk(DoVote(st, m))
  {
    VoteEffect(st, m);
    hide HandleVote;
  }

  lemma KeepVoteLeaders(st: Cluster, m: VoteReqMsg)
    requires m in st.voteReqs && m.to < |st.servers| && ServersOk(st) && BallotsOk(st) && VoteMessagesOk(st) && LeadersOk(st)
    ensures LeadersOk(DoVote(st, m))
  {
    VoteEffect(st, m);
    assert |st.servers[m.to].log.records| > 0;
    hide HandleVote, ServerOk, VoteMessagesOk, ServersOk;
    VoteRoles(st, m);
  }

  lemma VoteRoles(st: Cluster, m: VoteReqMsg)
    requires m.to < |st.servers| && |st.servers[m.to].log.records| > 0 && LeadersOk(st)
    requires var s := st.servers[m.to];
             var (s', reply) := HandleVote(s, m.args);
             && s'.currentTerm >= s.currentTerm
             && (s'.role == Follower || (s'.role == s.role && s'.currentTerm == s.currentTerm && s'.votedFor == s.votedFor)
                 || (s'.role == s.role == Leader && s'.currentTerm == s.currentTerm))
    ensures LeadersOk(DoVote(st, m))
  {
    hide HandleVote, IsQuorum;
  }

  lemma KeepVote(st: Cluster, m: VoteReqMsg)
    requires ElectionInv(st) && m in st.voteReqs && m.to < |st.servers|
    ensures ElectionInv(DoVote(st, m))
  {
    KeepVoteServers(st, m);
    KeepVoteBallots(st, m);
    KeepVoteMessages(st, m);
    KeepVoteLeaders(st, m);
  }

  // -- a vote reply --

  /** A candidate counted a quorum in its own term leads a term that had no leader. */
  lemma FreshLeader(st: Cluster, i: nat, q: set<nat>)
    requires ServersOk(st) && CountedOk(st) && LeadersOk(st)
    requires i < |st.servers| && st.servers[i].role == Candidate && IsQuorum(q, |st.servers|)
    requires forall v :: v in q ==> VotedFor(st.hist.ballots, v, st.servers[i].currentTerm, i)
    ensures st.servers[i].currentTerm !in st.hist.lead.leaderOf
  {
    var t := st.servers[i].currentTerm;
    if t in st.hist.lead.leaderOf {
      var j := st.hist.lead.leaderOf[t];
      var v := QuorumsMeet(q, st.hist.counted[(j, t)], |st.servers|);
      assert false;
    }
  }

  /** The voters counted once this reply is. */
  ghost function NewCount(st: Cluster, m: VoteRepMsg): set<nat>
    requires (m.to, m.election) in st.hist.counted
  {
    st.hist.counted[(m.to, m.election)] + if m.reply.voteGranted then {m.from} else {}
  }

  lemma CountOnce(st: Cluster, m: VoteRepMsg)
    requires ServersOk(st) && CountedOk(st) && VotesOk(st) && VoteMessagesOk(st)
    requires m in st.voteReps && m.election in st.servers[m.to].votes
    ensures |NewCount(st, m)| == st.servers[m.to].votes[m.election] + if m.reply.voteGranted then 1 else 0
    ensures forall v :: v in NewCount(st, m) ==> v < |st.servers|
    ensures forall v :: v in NewCount(st, m) ==> VotedFor(st.hist.ballots, v, m.election, m.to)
  {
  }

  /** The reply is counted. */
  ghost predicate Counts(st: Cluster, m: VoteRepMsg) {
    && m in st.voteReps && m.to < |st.servers| && m.election in st.servers[m.to].votes
    && (m.to, m.election) in st.hist.counted
    && CountsVote(st.servers[m.to], m.reply)
  }

  /** What counting a reply changes, for the election invariant. */
  ghost predicate OnlyCounts(st: Cluster, m: VoteRepMsg, s': Server, st': Cluster)
    requires Counts(st, m)
  {
    var s := st.servers[m.to];
    && st'.servers == st.servers[m.to := s'] && ServerOk(s', m.to, |st.servers|)
    && s'.currentTerm == s.currentTerm && s'.votedFor == s.votedFor && s'.pending == s.pending
    && s'.votes == s.votes[m.election := |NewCount(st, m)|]
    && s'.role == (if IsQuorum(NewCount(st, m), |st.servers|) then Leader else Candidate)
    && st'.voteReqs == st.voteReqs && st'.voteReps == st.voteReps - {m}
    && st'.hist.ballots == st.hist.ballots
    && st'.hist.counted == st.hist.counted[(m.to, m.election) := NewCount(st, m)]
    && st'.hist.lead.leaderOf == (if s'.role == Leader then st.hist.lead.leaderOf[s.currentTerm := m.to] else st.hist.lead.leaderOf)
    && |st'.hist.source| == |st.hist.source|
  }

  lemma CountEffect(st: Cluster, m: VoteRepMsg)
    requires |st.hist.source| == |st.servers| && ServersOk(st) && Counts(st, m)
    requires |NewCount(st, m)| == st.servers[m.to].votes[m.election] + if m.reply.voteGranted then 1 else 0
    requires forall v :: v in NewCount(st, m) ==> v < |st.servers|
    ensures OnlyCounts(st, m, HandleVoteReply(st.servers[m.to], m.election, m.reply), DoVoteBack(st, m))
  {
    var s := st.servers[m.to];
    CountedServer(s, m.to, |st.servers|, m.election, m.reply);
    CountedHistory(st, m);
    hide HandleVoteReply, ServerOk, VoteBackHistory, ServersOk;
  }

  lemma CountedHistory(st: Cluster, m: VoteRepMsg)
    requires |st.hist.source| == |st.servers| && Counts(st, m)
    ensures var s, h := st.servers[m.to], VoteBackHistory(st, m);
            var wins := HandleVoteReply(s, m.election, m.reply).role == Leader;
            && h.ballots == st.hist.ballots && |h.source| == |st.hist.source|
            && h.counted == st.hist.counted[(m.to, m.election) := NewCount(st, m)]
            && h.lead.leaderOf == if wins then st.hist.lead.leaderOf[s.currentTerm := m.to] else st.hist.lead.leaderOf
  {
    assert st.hist.counted == st.hist.counted[(m.to, m.election) := st.hist.counted[(m.to, m.election)]];
    assert st.hist.counted[(m.to, m.election)] + {} == st.hist.counted[(m.to, m.election)];
    hide HandleVoteReply;
  }

  /** What counting a reply leaves of the candidate. */
  lemma CountedServer(s: Server, i: nat, n: nat, election: nat, reply: VoteReply)
    requires ServerOk(s, i, n) && election in s.votes && CountsVote(s, reply)
    ensures var s' := HandleVoteReply(s, election, reply);
            var votes := s.votes[election] + if reply.voteGranted then 1 else 0;
            && s.role == Candidate && s.peers == n
            && ServerOk(s', i, n) && s'.currentTerm == s.currentTerm && s'.votedFor == s.votedFor && s'.pending == s.pending
            && s'.votes == s.votes[election := votes] && s'.role == if 2 * votes > n then Leader else Candidate
  {
  }

  lemma KeepCountVotes(st: Cluster, m: VoteRepMsg, s': Server, st': Cluster)
    requires BallotsOk(st) && CountedOk(st) && Counts(st, m) && OnlyCounts(st, m, s', st')
    requires forall v :: v in NewCount(st, m) ==> v < |st.servers| && VotedFor(st.hist.ballots, v, m.election, m.to)
    ensures BallotsOk(st') && CountedOk(st')
  {
    hide ServerOk, NewCount, IsQuorum;
    forall c, e, v | (c, e) in st'.hist.counted && v in st'.hist.counted[(c, e)]
      ensures v < |st'.servers| && VotedFor(st'.hist.ballots, v, e, c)
    {
      if (c, e) != (m.to, m.election) {
        assert (c, e) in st.hist.counted;
      }
    }
  }

  lemma KeepCountCounters(st: Cluster, m: VoteRepMsg, s': Server, st': Cluster)
    requires ServersOk(st) && VotesOk(st) && Counts(st, m) && OnlyCounts(st, m, s', st')
    ensures VotesOk(st')
  {
  }

  lemma KeepCountMessages(st: Cluster, m: VoteRepMsg, s': Server, st': Cluster)
    requires VoteMessagesOk(st) && Counts(st, m) && OnlyCounts(st, m, s', st')
    ensures VoteMessagesOk(st')
  {
  }

  lemma KeepCountLeaders(st: Cluster, m: VoteRepMsg, s': Server, st': Cluster)
    requires LeadersOk(st) && Counts(st, m) && OnlyCounts(st, m, s', st')
    requires s'.role == Leader ==> m.election == s'.currentTerm && m.election !in st.hist.lead.leaderOf
    requires forall v :: v in NewCount(st, m) ==> v < |st.servers|
    ensures LeadersOk(st')
  {
    hide ServerOk, NewCount;
    forall t | t in st'.hist.lead.leaderOf
      ensures var i := st'.hist.lead.leaderOf[t];
              i < |st'.servers| && 1 <= t <= st'.servers[i].currentTerm &&
              (i, t) in st'.hist.counted && IsQuorum(st'.hist.counted[(i, t)], |st'.servers|)
    {
      CountedQuorum(st, m, s', st', t);
    }
  }

  /** A quorum that was counted stays one when another vote is. */
  lemma CountedQuorum(st: Cluster, m: VoteRepMsg, s': Server, st': Cluster, t: nat)
    requires LeadersOk(st) && Counts(st, m) && OnlyCounts(st, m, s', st') && t in st'.hist.lead.leaderOf
    requires s'.role == Leader ==> m.election == s'.currentTerm && m.election !in st.hist.lead.leaderOf
    requires forall v :: v in NewCount(st, m) ==> v < |st.servers|
    ensures var i := st'.hist.lead.leaderOf[t];
            i < |st'.servers| && 1 <= t <= st'.servers[i].currentTerm &&
            (i, t) in st'.hist.counted && IsQuorum(st'.hist.counted[(i, t)], |st'.servers|)
  {
    assert s'.currentTerm >= 1;
    hide NewCount, ServerOk, IsQuorum;
    if t in st.hist.lead.leaderOf {
      LedQuorum(st, t);
      if (st.hist.lead.leaderOf[t], t) == (m.to, m.election) {
        GrownQuorum(st, m);
      }
    }
  }

  lemma LedQuorum(st: Cluster, t: nat)
    requires LeadersOk(st) && t in st.hist.lead.leaderOf
    ensures var i := st.hist.lead.leaderOf[t];
            i < |st.servers| && 1 <= t <= st.servers[i].currentTerm && (i, t) in st.hist.counted
            && IsQuorum(st.hist.counted[(i, t)], |st.servers|)
  {
  }

  lemma GrownQuorum(st: Cluster, m: VoteRepMsg)
    requires (m.to, m.election) in st.hist.counted && IsQuorum(st.hist.counted[(m.to, m.election)], |st.servers|)
    requires forall v :: v in NewCount(st, m) ==> v < |st.servers|
    ensures IsQuorum(NewCount(st, m), |st.servers|)
  {
    SubsetIsSmaller(st.hist.counted[(m.to, m.election)], NewCount(st, m));
  }

  lemma KeepCount(st: Cluster, m: VoteRepMsg)
    requires ElectionInv(st) && Counts(st, m) && OwnTermVote(st, VoteBack(m))
    ensures ElectionInv(DoVoteBack(st, m))
  {
    var s', st' := HandleVoteReply(st.servers[m.to], m.election, m.reply), DoVoteBack(st, m);
    hide BallotsOk, CountedOk, VotesOk, VoteMessagesOk, LeadersOk, DoVoteBack, HandleVoteReply, ServerOk, NewCount;
    CountOnce(st, m);
    CountEffect(st, m);
    if s'.role == Leader {
      CountedWin(st, m, s', st');
    }
    hide OwnTermVote;
    KeepCountVotes(st, m, s', st');
    KeepCountCounters(st, m, s', st');
    KeepCountMessages(st, m, s', st');
    KeepCountLeaders(st, m, s', st');
    KeepCountServers(st, m, s', st');
    hide OnlyCounts, ServersOk;
  }

  lemma KeepCountServers(st: Cluster, m: VoteRepMsg, s': Server, st': Cluster)
    requires ServersOk(st) && Counts(st, m) && OnlyCounts(st, m, s', st') && |st.hist.source| == |st.servers|
    ensures ServersOk(st') && |st'.hist.source| == |st'.servers|
  {
    hide ServerOk, NewCount;
  }

  lemma CountedWin(st: Cluster, m: VoteRepMsg, s': Server, st': Cluster)
    requires ServersOk(st) && CountedOk(st) && LeadersOk(st) && Counts(st, m) && OnlyCounts(st, m, s', st') && s'.role == Leader
    requires s' == HandleVoteReply(st.servers[m.to], m.election, m.reply) && OwnTermVote(st, VoteBack(m))
    requires forall v :: v in NewCount(st, m) ==> VotedFor(st.hist.ballots, v, m.election, m.to)
    ensures m.election == s'.currentTerm && m.election !in st.hist.lead.leaderOf
  {
    hide HandleVoteReply, ServerOk, NewCount, CountedOk, LeadersOk;
    assert m.election == st.servers[m.to].currentTerm;
    FreshLeader(st, m.to, NewCount(st, m));
  }

  lemma KeepVoteBack(st: Cluster, m: VoteRepMsg)
    requires ElectionInv(st) && Enabled(st, VoteBack(m)) && OwnTermVote(st, VoteBack(m))
    ensures ElectionInv(DoVoteBack(st, m))
  {
    if CountsVote(st.servers[m.to], m.reply) {
      KeepCount(st, m);
    } else {
      KeepStandingBack(st, m.to, HandleVoteReply(st.servers[m.to], m.election, m.reply), DoVoteBack(st, m));
    }
  }

  // -- every step --

  lemma FollowerStandsBack(s: Server, n: nat, term: nat)
    requires ServerOk(s, s.me, n) && term >= s.currentTerm
    ensures ServerOk(BecomeFollower(s, term), s.me, n) && StandsBack(s, BecomeFollower(s, term))
    ensures BecomeFollower(s, term).role == Follower && BecomeFollower(s, term).log == s.log
  {
  }

  lemma AppendStandsBack(s: Server, n: nat, args: AppendArgs)
    requires ServerOk(s, s.me, n) && Readable(s, args)
    ensures ServerOk(HandleAppend(s, args).0, s.me, n) && StandsBack(s, HandleAppend(s, args).0)
  {
    if args.term >= s.currentTerm {
      FollowerStandsBack(s, n, args.term);
    }
    hide BecomeFollower, ScanFor;
  }

  lemma AppendReplyStandsBack(s: Server, n: nat, m: AppendRepMsg)
    requires ServerOk(s, s.me, n) && CanHandleReply(s, m)
    ensures var s' := HandleAppendReply(s, m.from, m.args, m.reply);
            ServerOk(s', s.me, n) && StandsBack(s, s')
  {
    hide MajorityIndex, BackUp;
  }

  lemma KeepAppend(st: Cluster, m: AppendReqMsg)
    requires ElectionInv(st) && Enabled(st, Append(m)) && Defined(st, Append(m))
    ensures ElectionInv(DoAppend(st, m))
  {
    AppendStandsBack(st.servers[m.to], |st.servers|, m.args);
    hide ServerOk, StandsBack;
    KeepStandingBack(st, m.to, HandleAppend(st.servers[m.to], m.args).0, DoAppend(st, m));
  }

  lemma KeepAppendBack(st: Cluster, m: AppendRepMsg)
    requires ElectionInv(st) && Enabled(st, AppendBack(m)) && Defined(st, AppendBack(m))
    ensures ElectionInv(DoAppendBack(st, m))
  {
    var i := m.args.leaderId;
    AppendReplyStandsBack(st.servers[i], |st.servers|, m);
    hide ServerOk, StandsBack, HandleAppendReply;
    KeepStandingBack(st, i, HandleAppendReply(st.servers[i], m.from, m.args, m.reply), DoAppendBack(st, m));
  }

  lemma ClientStandsBack(s: Server, i: nat, n: nat, op: Op)
    requires ServerOk(s, i, n)
    ensures ServerOk(Start(s, op), i, n) && StandsBack(s, Start(s, op))
  {
  }

  lemma ReplicationStandsBack(s: Server, i: nat, n: nat, term: nat)
    requires ServerOk(s, i, n)
    ensures ServerOk(StartReplication(s, term), i, n) && StandsBack(s, StartReplication(s, term))
  {
  }

  lemma CrashStandsBack(s: Server, i: nat, n: nat)
    requires ServerOk(s, i, n)
    ensures ServerOk(Boot(s.me, s.peers, s.persister), i, n) && StandsBack(s, Boot(s.me, s.peers, s.persister))
  {
  }

  lemma KeepClient(st: Cluster, i: nat, op: Op)
    requires ElectionInv(st) && i < |st.servers|
    ensures ElectionInv(DoClient(st, i, op))
  {
    hide BallotsOk, CountedOk, VotesOk, VoteMessagesOk, LeadersOk, ServerOk, StandsBack, Start;
    ClientStandsBack(st.servers[i], i, |st.servers|, op);
    if st.servers[i].role == Leader {
      KeepStandingBack(st, i, Start(st.servers[i], op), DoClient(st, i, op));
    }
  }

  lemma KeepReplicate(st: Cluster, i: nat, term: nat)
    requires ElectionInv(st) && i < |st.servers| && (!ContextLost(st.servers[i], Leader, term) ==> CanReplicate(st.servers[i]))
    ensures ElectionInv(DoReplicate(st, i, term))
  {
    assert ServerOk(st.servers[i], i, |st.servers|);
    ReplicationStandsBack(st.servers[i], i, |st.servers|, term);
    hide BallotsOk, CountedOk, VotesOk, VoteMessagesOk, LeadersOk, ServerOk, StandsBack, StartReplication, ReplicationMessage, CanReplicate;
    if !ContextLost(st.servers[i], Leader, term) {
      KeepStandingBack(st, i, StartReplication(st.servers[i], term), DoReplicate(st, i, term));
    }
  }

  lemma KeepCrash(st: Cluster, i: nat)
    requires ElectionInv(st) && i < |st.servers|
    ensures ElectionInv(DoCrash(st, i))
  {
    hide BallotsOk, CountedOk, VotesOk, VoteMessagesOk, LeadersOk, ServerOk, StandsBack, Boot;
    var s := st.servers[i];
    CrashStandsBack(s, i, |st.servers|);
    KeepStandingBack(st, i, Boot(s.me, s.peers, s.persister), DoCrash(st, i));
  }

  lemma KeepApplyStep(st: Cluster, step: Step)
    requires ElectionInv(st) && Enabled(st, step) && Defined(st, step)
    requires step.Collect? || step.Deliver? || step.Finish?
    ensures ElectionInv(Apply(st, step))
  {
    var st' := Apply(st, step);
    hide BallotsOk, CountedOk, VotesOk, VoteMessagesOk, LeadersOk;
    KeepStandingBack(st, step.i, st'.servers[step.i], st');
  }

  lemma KeepElection(st: Cluster, step: Step, st': Cluster)
    requires ElectionInv(st) && Next(st, step, st') && OwnTermVote(st, step)
    ensures ElectionInv(st')
  {
    hide ElectionInv, OwnTermVote;
    match step
    case Timeout(i) => KeepTimeout(st, i);
    case Elect(i, term) => KeepElect(st, i, term);
    case Vote(m) => KeepVote(st, m);
    case VoteBack(m) => KeepVoteBack(st, m);
    case Append(m) => KeepAppend(st, m);
    case AppendBack(m) => KeepAppendBack(st, m);
    case Client(i, op) => KeepClient(st, i, op);
    case Replicate(i, term) => KeepReplicate(st, i, term);
    case Crash(i) => KeepCrash(st, i);
    case _ => KeepApplyStep(st, step);
  }

  // ---------- whole runs ----------

  lemma {:induction false} ElectionInvHolds(states: seq<Cluster>, steps: seq<Step>, k: nat)
    requires Run(states, steps) && OwnTermVotes(states, steps) && k < |states|
    ensures ElectionInv(states[k])
  {
    if k == 0 {
      InitialElection(|states[0].servers|);
    } else {
      ElectionInvHolds(states, steps, k - 1);
      assert Next(states[k - 1], steps[k - 1], states[k - 1 + 1]);
      KeepElection(states[k - 1], steps[k - 1], states[k]);
    }
  }

  lemma LeaderStaysCount(st: Cluster, m: VoteRepMsg)
    requires ElectionInv(st) && Counts(st, m) && OwnTermVote(st, VoteBack(m))
    ensures forall t :: t in st.hist.lead.leaderOf ==>
              t in DoVoteBack(st, m).hist.lead.leaderOf && DoVoteBack(st, m).hist.lead.leaderOf[t] == st.hist.lead.leaderOf[t]
  {
    hide BallotsOk, CountedOk, VotesOk, VoteMessagesOk, LeadersOk, DoVoteBack, HandleVoteReply, NewCount;
    CountOnce(st, m);
    CountEffect(st, m);
    if IsQuorum(NewCount(st, m), |st.servers|) {
      FreshLeader(st, m.to, NewCount(st, m));
    }
  }

  /** A term keeps the leader it has had. */
  lemma LeaderStays(st: Cluster, step: Step, st': Cluster)
    requires ElectionInv(st) && Next(st, step, st') && OwnTermVote(st, step)
    ensures forall t :: t in st.hist.lead.leaderOf ==>
              t in st'.hist.lead.leaderOf && st'.hist.lead.leaderOf[t] == st.hist.lead.leaderOf[t]
  {
    hide ElectionInv;
    if step.VoteBack? && CountsVote(st.servers[step.voteRep.to], step.voteRep.reply) {
      hide OwnTermVote;
      LeaderStaysCount(st, step.voteRep);
    }
  }

  lemma {:induction false} LeaderStaysLong(states: seq<Cluster>, steps: seq<Step>, a: nat, b: nat, t: nat)
    requires Run(states, steps) && OwnTermVotes(states, steps) && a <= b < |states|
    requires t in states[a].hist.lead.leaderOf
    ensures t in states[b].hist.lead.leaderOf && states[b].hist.lead.leaderOf[t] == states[a].hist.lead.leaderOf[t]
  {
    hide ElectionInv, Next, OwnTermVote;
    if a < b {
      LeaderStaysLong(states, steps, a, b - 1, t);
      ElectionInvHolds(states, steps, b - 1);
      assert Next(states[b - 1], steps[b - 1], states[b - 1 + 1]);
      LeaderStays(states[b - 1], steps[b - 1], states[b]);
    }
  }

  /** No term has two leaders, at one time or at different times, before or after any crash. */
  lemma ElectionSafety(states: seq<Cluster>, steps: seq<Step>, a: nat, i: nat, b: nat, j: nat)
    requires Run(states, steps) && OwnTermVotes(states, steps) && a < |states| && b < |states|
    requires i < |states[a].servers| && states[a].servers[i].role == Leader
    requires j < |states[b].servers| && states[b].servers[j].role == Leader
    requires states[a].servers[i].currentTerm == states[b].servers[j].currentTerm
    ensures i == j
  {
    ElectionInvHolds(states, steps, a);
    ElectionInvHolds(states, steps, b);
    var last := |states| - 1;
    LeaderStaysLong(states, steps, a, last, states[a].servers[i].currentTerm);
    LeaderStaysLong(states, steps, b, last, states[b].servers[j].currentTerm);
  }

  // ---------- exactly when the code's vote guard is enough ----------

  /** A candidate has not yet counted a majority for its own term, or it would lead. */
  ghost predicate BelowHalf(s: Server, counted: map<(nat, nat), set<nat>>) {
    s.role == Candidate && (s.me, s.currentTerm) in counted && s.peers >= 2 ==>
      s.currentTerm in s.votes && 2 * s.votes[s.currentTerm] <= s.peers
  }

  ghost predicate AllBelowHalf(st: Cluster) {
    && (forall i: nat :: i < |st.servers| ==> BelowHalf(st.servers[i], st.hist.counted))
    && (|st.servers| < 2 ==> st.voteReqs == {} && st.voteReps == {})
  }

  /** Server i moves, and counts only for itself. */
  ghost predicate MovesAlone(st: Cluster, i: nat, st': Cluster) {
    && i < |st.servers| == |st'.servers| && st'.servers == st.servers[i := st'.servers[i]]
    && (forall c, e :: (c, e) in st'.hist.counted && (c, e) !in st.hist.counted ==> c == i)
    && BelowHalf(st'.servers[i], st'.hist.counted)
    && (|st.servers| < 2 && st.voteReqs == {} && st.voteReps == {} ==> st'.voteReqs == {} && st'.voteReps == {})
  }

  lemma BelowHalfBack(s: Server, s': Server, counted: map<(nat, nat), set<nat>>)
    requires BelowHalf(s, counted) && StandsBack(s, s') && s'.peers == s.peers && s'.me == s.me
    requires s'.votes == s.votes || s'.role == Follower
    ensures BelowHalf(s', counted)
  {
  }

  lemma ElectBelowHalf(st: Cluster, i: nat, term: nat)
    requires i < |st.servers| && ServerOk(st.servers[i], i, |st.servers|) && BelowHalf(st.servers[i], st.hist.counted)
    ensures MovesAlone(st, i, DoElect(st, i, term))
  {
    ElectServerBelowHalf(st.servers[i], st.hist.counted, term);
    if |st.servers| < 2 && st.voteReqs == {} {
      AsksNoOne(st, i, term);
    }
    hide ServerOk, StartElection, VoteRequest, BelowHalf;
  }

  lemma ElectServerBelowHalf(s: Server, counted: map<(nat, nat), set<nat>>, term: nat)
    requires BelowHalf(s, counted)
    ensures var counted' := if AsksVotes(s, term) then counted[(s.me, term) := {s.me}] else counted;
            BelowHalf(StartElection(s, term), counted')
  {
  }

  lemma AsksNoOne(st: Cluster, i: nat, term: nat)
    requires i < |st.servers| < 2 && |st.servers[i].log.records| > 0 && st.voteReqs == {}
    ensures DoElect(st, i, term).voteReqs == {}
  {
    hide VoteRequest, StartElection;
    assert forall p: nat :: p in Upto(|st.servers|) ==> p == i;
  }

  lemma VoteBackBelowHalf(st: Cluster, m: VoteRepMsg, st': Cluster)
    requires Next(st, VoteBack(m), st') && m.to < |st.servers| && BelowHalf(st.servers[m.to], st.hist.counted)
    requires ServerOk(st.servers[m.to], m.to, |st.servers|)
    ensures MovesAlone(st, m.to, st')
  {
    hide Persisted;
  }

  lemma VoteBelowHalf(st: Cluster, m: VoteReqMsg, st': Cluster)
    requires Next(st, Vote(m), st') && m.to < |st.servers| && BelowHalf(st.servers[m.to], st.hist.counted)
    requires ServerOk(st.servers[m.to], m.to, |st.servers|)
    ensures MovesAlone(st, m.to, st')
  {
    hide Persisted, IsMoreUpToDate;
  }

  lemma ActorBelowHalf(st: Cluster, step: Step, st': Cluster)
    requires Next(st, step, st') && !step.Append? && !step.AppendBack? && !step.Elect? && !step.Vote? && !step.VoteBack?
    requires Actor(step) < |st.servers| && BelowHalf(st.servers[Actor(step)], st.hist.counted)
    requires ServerOk(st.servers[Actor(step)], Actor(step), |st.servers|)
    requires (Actor(step), st.servers[Actor(step)].currentTerm + 1) !in st.hist.counted
    ensures MovesAlone(st, Actor(step), st')
  {
    hide Persisted, ReplicationMessage, CanReplicate;
  }

  lemma AppendBelowHalf(st: Cluster, step: Step, st': Cluster)
    requires ServersOk(st) && AllBelowHalf(st) && Next(st, step, st') && (step.Append? || step.AppendBack?)
    ensures MovesAlone(st, Actor(step), st')
  {
    hide Persisted, HandleAppend, HandleAppendReply, StandsBack, BelowHalf;
    if step.Append? {
      var m := step.appendReq;
      AppendStandsBack(st.servers[m.to], |st.servers|, m.args);
      AppendVotes(st.servers[m.to], m.args);
      BelowHalfBack(st.servers[m.to], HandleAppend(st.servers[m.to], m.args).0, st.hist.counted);
    } else {
      var m := step.appendRep;
      AppendReplyStandsBack(st.servers[m.args.leaderId], |st.servers|, m);
      AppendReplyVotes(st.servers[m.args.leaderId], m);
      BelowHalfBack(st.servers[m.args.leaderId],
                    HandleAppendReply(st.servers[m.args.leaderId], m.from, m.args, m.reply), st.hist.counted);
    }
  }

  lemma AppendVotes(s: Server, args: AppendArgs)
    requires Readable(s, args)
    ensures HandleAppend(s, args).0.votes == s.votes
  {
  }

  lemma AppendReplyVotes(s: Server, m: AppendRepMsg)
    requires CanHandleReply(s, m)
    ensures HandleAppendReply(s, m.from, m.args, m.reply).votes == s.votes
  {
    hide MajorityIndex, BackUp;
  }

  lemma KeepBelowHalf(st: Cluster, step: Step, st': Cluster)
    requires ElectionInv(st) && AllBelowHalf(st) && Next(st, step, st')
    ensures AllBelowHalf(st')
  {
    hide BallotsOk, VotesOk, VoteMessagesOk, LeadersOk, Persisted, DoElect, Defined;
    if step.Append? || step.AppendBack? {
      AppendBelowHalf(st, step, st');
    } else if step.Elect? {
      ElectBelowHalf(st, step.i, step.term);
    } else if step.Vote? {
      VoteBelowHalf(st, step.voteReq, st');
    } else if step.VoteBack? {
      VoteBackBelowHalf(st, step.voteRep, st');
    } else {
      ActorBelowHalf(st, step, st');
    }
  }

  lemma {:induction false} BelowHalfHolds(states: seq<Cluster>, steps: seq<Step>, k: nat)
    requires Run(states, steps) && OwnTermVotes(states, steps) && k < |states|
    ensures ElectionInv(states[k]) && AllBelowHalf(states[k])
  {
    hide ElectionInv, OwnTermVote;
    ElectionInvHolds(states, steps, k);
    if k > 0 {
      BelowHalfHolds(states, steps, k - 1);
      assert Next(states[k - 1], steps[k - 1], states[k - 1 + 1]);
      hide Next, AllBelowHalf;
      KeepBelowHalf(states[k - 1], steps[k - 1], states[k]);
    }
  }

  /** A late reply of another election leaves the votes counted for the candidate's own term too few. */
  lemma StaleWin(st: Cluster, m: VoteRepMsg, st': Cluster)
    requires ServersOk(st) && VotesOk(st) && AllBelowHalf(st) && Next(st, VoteBack(m), st')
    requires Wins(st, m)
    ensures st.servers[m.to].role == Candidate && CountsVote(st.servers[m.to], m.reply)
    ensures m.election != st.servers[m.to].currentTerm ==>
              var key := (m.to, st.servers[m.to].currentTerm);
              key in st'.hist.counted ==> !IsQuorum(st'.hist.counted[key], |st.servers|)
  {
    hide Persisted;
    assert BelowHalf(st.servers[m.to], st.hist.counted) && CounterOk(st.servers[m.to], st.hist.counted);
  }

  /**
   * In a run that has kept to the intended guard, a reply that makes a leader makes one that has counted
   * a majority of the votes of the term it leads if and only if the reply is of that term.
   */
  lemma MajorityIffOwnTerm(states: seq<Cluster>, steps: seq<Step>, k: nat, m: VoteRepMsg, st': Cluster)
    requires Run(states, steps) && OwnTermVotes(states, steps) && k < |states|
    requires Next(states[k], VoteBack(m), st') && m.to < |states[k].servers|
    requires Wins(states[k], m)
    ensures var key := (m.to, states[k].servers[m.to].currentTerm);
            (key in st'.hist.counted && IsQuorum(st'.hist.counted[key], |states[k].servers|)) <==>
            m.election == states[k].servers[m.to].currentTerm
  {
    hide OwnTermVote, BallotsOk, LeadersOk, AllBelowHalf, Run, OwnTermVotes, Persisted;
    var st := states[k];
    BelowHalfHolds(states, steps, k);
    StaleWin(st, m, st');
    if m.election == st.servers[m.to].currentTerm {
      CountOnce(st, m);
      CountEffect(st, m);
    }
  }
}
