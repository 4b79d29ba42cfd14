/**
 * What a leader has to do with a reply (src/raft/raft_replication.go:120-157), at any Base: commit whatever a majority
 * confirmed, go on right behind what the peer confirmed, and after a rejection skip only probes that would have been
 * rejected as well or that lie at entries of the conflicting term.
 */
module Progress {
  import opened FiniteSets
  import opened RaftLog
  import opened RaftServer
  import opened Majority
  import opened Cluster
  import opened ElectionSafety
  import opened LogMatching

  // ---------- success ----------

  /** The last index that an accepted request leaves in the follower's log. */
  function Confirmed(args: AppendArgs): int {
    args.prevLogIndex + |args.entries|
  }

  /** A majority index above commitIndex is inside the log. */
  lemma ReachedIsInLog(s: Server, m: int)
    requires |s.matchIndex| > 0 && forall p :: 0 <= p < |s.matchIndex| ==> s.matchIndex[p] < s.log.Size()
    requires IsLargestReached(s.matchIndex, m)
    ensures m < s.log.Size()
  {
    LargestReachedIsMajority(s.matchIndex, m);
    MajorityIndexIsMember(s.matchIndex);
    hide MajorityIndex, IsLargestReached;
  }

  lemma AdvanceExact(s: Server, m: int)
    requires |s.matchIndex| > 0 && s.log.base <= s.commitIndex
    requires forall p :: 0 <= p < |s.matchIndex| ==> s.matchIndex[p] < s.log.Size()
    requires IsLargestReached(s.matchIndex, m)
    ensures m < s.log.Size()
    ensures AdvanceCommit(s) ==
            s.(commitIndex := if m > s.commitIndex && s.log.Get(m).term == s.currentTerm then m else s.commitIndex)
  {
    ReachedIsInLog(s, m);
    LargestReachedIsMajority(s.matchIndex, m);
    hide MajorityIndex, IsLargestReached;
  }

  /**
   * A success reply that counts: the leader commits the largest index that a majority has reached if it is new
   * and of its own term, and nothing else; the peer's match index is what it confirmed.
   */
  lemma CommitExact(s: Server, m: AppendRepMsg, top: int)
    requires CanHandleReply(s, m) && AppendReplyCounts(s, m.args, m.reply) && m.reply.success
    requires IsLargestReached(s.matchIndex[m.from := Confirmed(m.args)], top)
    ensures top < s.log.Size()
    ensures var s' := HandleAppendReply(s, m.from, m.args, m.reply);
            && s'.matchIndex == s.matchIndex[m.from := Confirmed(m.args)]
            && s'.commitIndex == (if top > s.commitIndex && s.log.Get(top).term == s.currentTerm then top else s.commitIndex)
            && s' == s.(matchIndex := s'.matchIndex, nextIndex := s'.nextIndex, commitIndex := s'.commitIndex)
  {
    var matched := Confirmed(m.args);
    var s1 := s.(matchIndex := s.matchIndex[m.from := matched], nextIndex := s.nextIndex[m.from := matched + 1]);
    AdvanceExact(s1, top);
    hide AdvanceCommit, IsLargestReached;
  }

  /** The next message to that peer starts right behind what it confirmed and holds the whole rest of the log. */
  lemma NextIsBehindConfirmed(s: Server, m: AppendRepMsg)
    requires CanHandleReply(s, m) && AppendReplyCounts(s, m.args, m.reply) && m.reply.success
    requires s.log.base <= Confirmed(m.args)
    ensures var s' := HandleAppendReply(s, m.from, m.args, m.reply);
            var matched := Confirmed(m.args);
            && m.from < |s'.nextIndex| && s'.log == s.log && s'.nextIndex[m.from] <= s'.log.Size()
            && s'.nextIndex == s.nextIndex[m.from := s'.nextIndex[m.from]]
            && var out := ReplicationMessage(s', m.from);
               && out.SendAppend? && out.append.prevLogIndex == matched == s'.matchIndex[m.from]
               && out.append.prevLogTerm == s.log.Get(matched).term && out.append.term == s.currentTerm
               && |out.append.entries| == s.log.Size() - 1 - matched
               && forall i :: 0 <= i < |out.append.entries| ==> out.append.entries[i] == s.log.Get(matched + 1 + i)
  {
    hide MajorityIndex;
  }

  // ---------- a round of replication ----------

  /** A success reply that counts and confirms the leader's whole log. */
  predicate ConfirmsAll(s: Server, m: AppendRepMsg) {
    && m.from < |s.matchIndex| && AppendReplyCounts(s, m.args, m.reply) && m.reply.success
    && Confirmed(m.args) == s.log.Size() - 1
  }

  predicate AllConfirm(s: Server, replies: seq<AppendRepMsg>) {
    forall i :: 0 <= i < |replies| ==> ConfirmsAll(s, replies[i])
  }

  /** The same leader with the same log. */
  predicate SameLeader(s: Server, s': Server) {
    && s'.log == s.log && s'.me == s.me && s'.role == s.role && s'.currentTerm == s.currentTerm
    && |s'.matchIndex| == |s.matchIndex| && s'.commitIndex >= s.commitIndex
  }

  /** A leader whose indices are inside its log. */
  ghost predicate InRange(s: Server) {
    && s.me < |s.matchIndex| == |s.nextIndex| && s.log.base <= s.commitIndex < s.log.Size()
    && forall p :: 0 <= p < |s.matchIndex| ==> s.matchIndex[p] < s.log.Size()
  }

  lemma ConfirmsStep(s: Server, m: AppendRepMsg)
    requires InRange(s) && ConfirmsAll(s, m)
    ensures CanHandleReply(s, m)
    ensures var s' := HandleAppendReply(s, m.from, m.args, m.reply);
            InRange(s') && SameLeader(s, s') && s'.matchIndex == s.matchIndex[m.from := s.log.Size() - 1]
  {
    var top := MajorityIndex(s.matchIndex[m.from := Confirmed(m.args)]);
    LargestReachedIsMajority(s.matchIndex[m.from := Confirmed(m.args)], top);
    hide MajorityIndex, IsLargestReached;
    CommitExact(s, m, top);
    hide HandleAppendReply;
  }

  /** The leader after the replies, in the order in which they come. */
  function AfterReplies(s: Server, replies: seq<AppendRepMsg>): (s': Server)
    requires InRange(s) && AllConfirm(s, replies)
    ensures InRange(s') && SameLeader(s, s')
  {
    if replies == [] then s
    else
      var last := replies[|replies| - 1];
      var s1 := AfterReplies(s, replies[..|replies| - 1]);
      assert ConfirmsAll(s, last);
      ConfirmsStep(s1, last);
      HandleAppendReply(s1, last.from, last.args, last.reply)
  }

  ghost function Senders(replies: seq<AppendRepMsg>): set<nat> {
    set i | 0 <= i < |replies| :: replies[i].from
  }

  /** Who had reached the end or has confirmed it since has reached it. */
  lemma {:induction false} ReachEnd(s: Server, replies: seq<AppendRepMsg>, p: nat)
    requires InRange(s) && AllConfirm(s, replies)
    requires p < |s.matchIndex| && (s.matchIndex[p] == s.log.Size() - 1 || p in Senders(replies))
    ensures AfterReplies(s, replies).matchIndex[p] == s.log.Size() - 1
  {
    if replies != [] {
      var rest, last := replies[..|replies| - 1], replies[|replies| - 1];
      var s1 := AfterReplies(s, rest);
      ConfirmsStep(s1, last);
      if p != last.from {
        assert p in Senders(replies) ==> p in Senders(rest);
        hide HandleAppendReply;
        ReachEnd(s, rest, p);
      }
    }
  }

  lemma MoreIsQuorum(a: set<nat>, b: set<nat>, n: nat)
    requires IsQuorum(a, n) && a <= b && forall x :: x in b ==> x < n
    ensures IsQuorum(b, n)
  {
    SubsetIsSmaller(a, b);
  }

  /** A reply that completes a majority at the end of the log commits all of it. */
  lemma LastReplyCommits(s: Server, m: AppendRepMsg)
    requires InRange(s) && ConfirmsAll(s, m) && s.log.LastLogTerm() == s.currentTerm
    requires IsQuorum(Reaching(s.matchIndex[m.from := s.log.Size() - 1], s.log.Size() - 1), |s.matchIndex|)
    ensures CanHandleReply(s, m) && HandleAppendReply(s, m.from, m.args, m.reply).commitIndex == s.log.Size() - 1
  {
    var matchIndex := s.matchIndex[m.from := Confirmed(m.args)];
    var top := MajorityIndex(matchIndex);
    LargestReachedIsMajority(matchIndex, top);
    hide MajorityIndex, IsQuorum;
    CommitExact(s, m, top);
    hide HandleAppendReply;
  }

  lemma EndIsReached(s: Server, replies: seq<AppendRepMsg>)
    requires InRange(s) && AllConfirm(s, replies) && s.matchIndex[s.me] == s.log.Size() - 1
    requires IsQuorum({s.me} + Senders(replies), |s.matchIndex|)
    ensures IsQuorum(Reaching(AfterReplies(s, replies).matchIndex, s.log.Size() - 1), |s.matchIndex|)
  {
    var reached := Reaching(AfterReplies(s, replies).matchIndex, s.log.Size() - 1);
    hide AfterReplies;
    forall p | p in {s.me} + Senders(replies) ensures p in reached {
      ReachEnd(s, replies, p);
    }
    MoreIsQuorum({s.me} + Senders(replies), reached, |s.matchIndex|);
  }

  lemma AllConfirmedCommits(s: Server, replies: seq<AppendRepMsg>)
    requires InRange(s) && AllConfirm(s, replies) && s.matchIndex[s.me] == s.log.Size() - 1 && replies != []
    requires s.log.LastLogTerm() == s.currentTerm && IsQuorum({s.me} + Senders(replies), |s.matchIndex|)
    ensures AfterReplies(s, replies).commitIndex == s.log.Size() - 1
  {
    hide IsQuorum, Senders, MajorityIndex, BackUp, Reaching;
    EndIsReached(s, replies);
    var last, s1 := replies[|replies| - 1], AfterReplies(s, replies[..|replies| - 1]);
    assert ConfirmsAll(s, last);
    hide AllConfirm;
    ConfirmsStep(s1, last);
    LastReplyCommits(s1, last);
    hide HandleAppendReply;
  }

  /**
   * A leader whose last entry is of its own term sends its log around; once peers that make a majority with it
   * have confirmed, all of its log is committed, in whatever order their replies come.
   */
  lemma RoundCommitsAll(s: Server, term: nat, replies: seq<AppendRepMsg>)
    requires InRange(s) && !ContextLost(s, Leader, term) && s.log.LastLogTerm() == s.currentTerm && replies != []
    requires AllConfirm(StartReplication(s, term), replies) && IsQuorum({s.me} + Senders(replies), |s.matchIndex|)
    ensures InRange(StartReplication(s, term))
    ensures AfterReplies(StartReplication(s, term), replies).commitIndex == s.log.Size() - 1
  {
    hide IsQuorum, Senders, AfterReplies, AllConfirm;
    AllConfirmedCommits(StartReplication(s, term), replies);
  }

  // ---------- what is taken over ----------

  /**
   * A request that a follower accepts gives it the leader's log from there on, and commits there whatever the leader
   * has committed; when its reply counts, the leader knows that the follower has all that was sent.
   */
  lemma AcceptedTakesOver(s: Server, peer: nat, f: Server)
    requires peer < |s.nextIndex| && |s.log.records| > 0 && s.nextIndex[peer] <= s.log.Size()
    requires var out := ReplicationMessage(s, peer);
             out.SendAppend? && Readable(f, out.append) && HandleAppend(f, out.append).1.success
    ensures var args := ReplicationMessage(s, peer).append;
            var f' := HandleAppend(f, args).0;
            && f'.log.base == f.log.base && f'.log.Size() == s.log.Size() == Confirmed(args) + 1 && f'.currentTerm == s.currentTerm
            && (forall i :: s.nextIndex[peer] <= i < s.log.Size() ==> f'.log.Get(i) == s.log.Get(i))
            && (forall i :: f.log.base <= i < s.nextIndex[peer] ==> i < f.log.Size() && f'.log.Get(i) == f.log.Get(i))
            && f'.commitIndex == if s.commitIndex > f.commitIndex then s.commitIndex else f.commitIndex
  {
    hide ScanFor;
  }

  /** In a run the terms of a log ascend from the dummy entry to at most the server's own. */
  lemma TermsUpToOwn(states: seq<Cluster>, steps: seq<Step>, k: nat, i: nat)
    requires Run(states, steps) && OwnTermVotes(states, steps) && k < |states| && i < |states[k].servers|
    ensures var s := states[k].servers[i];
            && s.log.base == 0 && |s.log.records| > 0 && s.log.records[0] == DUMMY && TermsAscend(s.log.records)
            && (forall j :: 0 < j < |s.log.records| ==> s.log.records[j].term != INVALID_TERM)
            && forall j :: 0 <= j < |s.log.records| ==> s.log.records[j].term <= s.currentTerm
  {
    hide BallotsOk, CountedOk, VotesOk, VoteMessagesOk, LeadersOk, Next, OwnTermVote;
    LogInvHolds(states, steps, k);
    ActorLog(states[k], i);
    assert ServerOk(states[k].servers[i], i, |states[k].servers|);
    HeldTerms(states[k].hist.lead, states[k].servers[i], states[k].hist.source[i]);
  }

  lemma HeldTerms(h: Leaders, s: Server, source: nat)
    requires LeaderLogsOk(h) && ServerLogOk(h, s, source)
    ensures |s.log.records| > 0 && s.log.records[0] == DUMMY && TermsAscend(s.log.records)
    ensures forall j :: 0 < j < |s.log.records| ==> s.log.records[j].term != INVALID_TERM
    ensures forall j :: 0 <= j < |s.log.records| ==> s.log.records[j].term <= s.currentTerm
  {
    assert LeaderLogOk(h, source);
    forall j | 0 < j < |s.log.records| ensures s.log.records[j].term != INVALID_TERM {
      BackedByLeader(h, source, s.log.records, j);
    }
  }

  /**
   * Over every run: once a success reply has been handled, no entry of the leader's term that a majority of
   * match indices reaches is left uncommitted.
   */
  lemma NothingLeftUncommitted(states: seq<Cluster>, steps: seq<Step>, k: nat, idx: int)
    requires Run(states, steps) && OwnTermVotes(states, steps) && k < |steps| && steps[k].AppendBack?
    requires var m := steps[k].appendRep;
             && m.args.leaderId < |states[k].servers| && m.reply.success
             && AppendReplyCounts(states[k].servers[m.args.leaderId], m.args, m.reply)
    requires var s' := states[k + 1].servers[steps[k].appendRep.args.leaderId];
             && 0 <= idx < |s'.log.records| && s'.log.records[idx].term == s'.currentTerm
             && IsQuorum(Reaching(s'.matchIndex, idx), |s'.matchIndex|)
    ensures idx <= states[k + 1].servers[steps[k].appendRep.args.leaderId].commitIndex
  {
    var m := steps[k].appendRep;
    var s := states[k].servers[m.args.leaderId];
    assert Next(states[k], steps[k], states[k + 1]);
    TermsUpToOwn(states, steps, k, m.args.leaderId);
    hide Run, OwnTermVotes, IsQuorum, HandleAppendReply;
    LeftUncommitted(s, m, idx);
  }

  lemma LeftUncommitted(s: Server, m: AppendRepMsg, idx: int)
    requires CanHandleReply(s, m) && AppendReplyCounts(s, m.args, m.reply) && m.reply.success
    requires s.log.base == 0 && TermsAscend(s.log.records)
    requires forall j :: 0 <= j < |s.log.records| ==> s.log.records[j].term <= s.currentTerm
    requires var s' := HandleAppendReply(s, m.from, m.args, m.reply);
             && 0 <= idx < |s.log.records| && s.log.records[idx].term == s.currentTerm
             && IsQuorum(Reaching(s'.matchIndex, idx), |s'.matchIndex|)
    ensures idx <= HandleAppendReply(s, m.from, m.args, m.reply).commitIndex
  {
    var matchIndex := s.matchIndex[m.from := Confirmed(m.args)];
    var top := MajorityIndex(matchIndex);
    LargestReachedIsMajority(matchIndex, top);
    hide MajorityIndex, IsQuorum;
    CommitExact(s, m, top);
    hide HandleAppendReply;
    if idx < top {
      assert s.log.records[idx].term <= s.log.records[top].term;
    }
  }

  // ---------- rejection ----------

  /** A request of the leader's term that names an entry of its log. */
  predicate Probes(leader: Server, args: AppendArgs) {
    && args.term == leader.currentTerm && leader.log.base <= args.prevLogIndex < leader.log.Size()
    && args.prevLogTerm == leader.log.Get(args.prevLogIndex).term
  }

  /** A request past the end of the follower's log is rejected with its size, and so is any other one past the end. */
  lemma TooShort(f: Server, args: AppendArgs)
    requires args.term >= f.currentTerm && args.prevLogIndex >= f.log.Size()
    ensures var (f', reply) := HandleAppend(f, args);
            && !reply.success && reply.conflictTerm == INVALID_TERM && reply.conflictIndex == f.log.Size()
            && f'.log == f.log && f'.currentTerm == args.term
  {
  }

  /**
   * After a rejection for a short log the next probe is at the last index of that log, or where it was if that
   * is lower; whatever probe is skipped the follower would have rejected.
   */
  lemma ShortLogBackup(f: Server, args: AppendArgs, s: Server, peer: nat)
    requires args.term >= f.currentTerm && args.prevLogIndex >= f.log.Size()
    requires var m := AppendRepMsg(peer, args, HandleAppend(f, args).1);
             CanHandleReply(s, m) && AppendReplyCounts(s, args, m.reply)
    ensures var (f', reply) := HandleAppend(f, args);
            var s' := HandleAppendReply(s, peer, args, reply);
            && s' == s.(nextIndex := s.nextIndex[peer := s'.nextIndex[peer]])
            && s'.nextIndex[peer] - 1 == (if f.log.Size() <= s.nextIndex[peer] then f.log.Size() - 1 else s.nextIndex[peer] - 1)
            && forall probe: AppendArgs ::
                 probe.term >= args.term && s'.nextIndex[peer] <= probe.prevLogIndex < s.nextIndex[peer] && Readable(f', probe) ==>
                   !HandleAppend(f', probe).1.success
  {
    TooShort(f, args);
    var (f', reply) := HandleAppend(f, args);
    hide HandleAppend, MajorityIndex;
    var s' := HandleAppendReply(s, peer, args, reply);
    forall probe: AppendArgs | probe.term >= args.term && s'.nextIndex[peer] <= probe.prevLogIndex < s.nextIndex[peer]
      ensures Readable(f', probe) && !HandleAppend(f', probe).1.success
    {
      TooShort(f', probe);
    }
  }

  /** A request that meets another term is rejected with that term and with the place of its first entry in the records. */
  lemma ConflictIsFirst(f: Server, args: AppendArgs)
    requires args.term >= f.currentTerm && f.log.base <= args.prevLogIndex < f.log.Size()
    requires f.log.Get(args.prevLogIndex).term != args.prevLogTerm && TermsAscend(f.log.records)
    ensures var (f', reply) := HandleAppend(f, args);
            var first := reply.conflictIndex;
            && !reply.success && reply.conflictTerm == f.log.Get(args.prevLogIndex).term
            && first <= args.prevLogIndex - f.log.base && IsFirstOf(f.log.records, reply.conflictTerm, first)
            && f'.log == f.log && f'.currentTerm == args.term
  {
    ScanForIsExact(f.log.records, f.log.Get(args.prevLogIndex).term, 0);
    hide ScanFor;
  }

  /** The next probe: the first entry of the conflicting term in the leader's log, or in the follower's if it has none. */
  lemma ConflictTarget(s: Server, next: int, reply: AppendReply)
    requires reply.conflictTerm != INVALID_TERM && TermsAscend(s.log.records)
    requires |s.log.records| > 0 && s.log.records[0].term == INVALID_TERM
    ensures var next' := BackUp(s, next, reply);
            && next' <= next
            && if exists i :: 0 <= i < |s.log.records| && s.log.records[i].term == reply.conflictTerm
               then next' < next ==> IsFirstOf(s.log.records, reply.conflictTerm, next')
               else next' < next ==> next' == reply.conflictIndex
  {
    ScanForIsExact(s.log.records, reply.conflictTerm, 0);
    hide ScanFor;
  }

  /** Whether the follower accepts a request that names an entry of its log. */
  lemma AcceptExact(f: Server, args: AppendArgs)
    requires args.term >= f.currentTerm && f.log.base <= args.prevLogIndex < f.log.Size()
    ensures HandleAppend(f, args).1.success <==> args.prevLogTerm == f.log.Get(args.prevLogIndex).term
  {
    hide ScanFor;
  }

  /**
   * After a rejection for another term a probe that is skipped would have been rejected as well, unless it names
   * an entry of the conflicting term, which both logs then hold there.
   */
  lemma ConflictBackup(f: Server, args: AppendArgs, s: Server, peer: nat, probe: AppendArgs)
    requires args.term >= f.currentTerm && f.log.base == 0 <= args.prevLogIndex < f.log.Size()
    requires f.log.Get(args.prevLogIndex).term != args.prevLogTerm && TermsAscend(f.log.records)
    requires f.log.Get(args.prevLogIndex).term != INVALID_TERM
    requires s.log.base == 0 < |s.log.records| && s.log.records[0].term == INVALID_TERM && TermsAscend(s.log.records)
    requires var m := AppendRepMsg(peer, args, HandleAppend(f, args).1);
             CanHandleReply(s, m) && AppendReplyCounts(s, args, m.reply)
    requires Probes(s, probe) && probe.prevLogIndex <= args.prevLogIndex
    requires var s' := HandleAppendReply(s, peer, args, HandleAppend(f, args).1);
             s'.nextIndex[peer] <= probe.prevLogIndex < s.nextIndex[peer]
    ensures var (f', reply) := HandleAppend(f, args);
            HandleAppend(f', probe).1.success <==>
              reply.conflictIndex <= probe.prevLogIndex && probe.prevLogTerm == reply.conflictTerm
  {
    ConflictIsFirst(f, args);
    var (f', reply) := HandleAppend(f, args);
    hide HandleAppend;
    ConflictTarget(s, s.nextIndex[peer], reply);
    hide BackUp, MajorityIndex;
    AcceptExact(f', probe);
  }

  lemma RejectionOk(states: seq<Cluster>, steps: seq<Step>, k: nat, m: AppendRepMsg)
    requires Run(states, steps) && OwnTermVotes(states, steps) && k < |states| && m in states[k].appendReps
    requires m.args.leaderId < |states[k].servers| && !m.reply.success && m.reply.term <= m.args.term
    ensures CanHandleReply(states[k].servers[m.args.leaderId], m)
    ensures 1 <= m.reply.conflictIndex <= m.args.prevLogIndex
  {
    hide BallotsOk, CountedOk, VotesOk, VoteMessagesOk, LeadersOk, LeaderLogsOk, Next, OwnTermVote, MajorityIndex;
    LogInvHolds(states, steps, k);
    LogAppendBack(states[k], m);
  }

  /**
   * The leader s handles f's rejection. If f's log was too short, the next probe is at the last index of that log, or
   * where it was if that is lower. And of the probes that are skipped f would have accepted exactly those at
   * entries of the conflicting term: none if its log was too short.
   */
  ghost predicate LosesNothing(f: Server, s: Server, m: AppendRepMsg, probe: AppendArgs)
    requires Readable(f, m.args) && CanHandleReply(s, m)
  {
    var f' := HandleAppend(f, m.args).0;
    var next, next' := s.nextIndex[m.from], HandleAppendReply(s, m.from, m.args, m.reply).nextIndex[m.from];
    && (m.args.prevLogIndex >= f.log.Size() ==> next' == if f.log.Size() <= next then f.log.Size() else next)
    && (&& Probes(s, probe) && next' <= probe.prevLogIndex < next
        && (probe.prevLogIndex <= m.args.prevLogIndex || m.args.prevLogIndex >= f.log.Size()) ==>
          && Readable(f', probe)
          && (HandleAppend(f', probe).1.success <==>
                && m.reply.conflictTerm != INVALID_TERM && m.reply.conflictIndex <= probe.prevLogIndex
                && probe.prevLogTerm == m.reply.conflictTerm))
  }

  lemma RejectedProbe(f: Server, s: Server, m: AppendRepMsg, probe: AppendArgs)
    requires CanHandleReply(s, m) && AppendReplyCounts(s, m.args, m.reply)
    requires f.log.base == 0 <= m.args.prevLogIndex && TermsAscend(f.log.records)
    requires m.args.term >= f.currentTerm && m.reply == HandleAppend(f, m.args).1 && !m.reply.success
    requires forall j :: 0 < j < |f.log.records| ==> f.log.records[j].term != INVALID_TERM
    requires 1 <= m.args.prevLogIndex
    requires s.log.base == 0 < |s.log.records| && s.log.records[0].term == INVALID_TERM && TermsAscend(s.log.records)
    ensures LosesNothing(f, s, m, probe)
  {
    if m.args.prevLogIndex >= f.log.Size() {
      ShortLogBackup(f, m.args, s, m.from);
      TooShort(f, m.args);
    } else {
      RejectedAtTerm(f, s, m, probe);
    }
  }

  lemma RejectedAtTerm(f: Server, s: Server, m: AppendRepMsg, probe: AppendArgs)
    requires CanHandleReply(s, m) && AppendReplyCounts(s, m.args, m.reply)
    requires f.log.base == 0 < m.args.prevLogIndex < f.log.Size() && TermsAscend(f.log.records)
    requires m.args.term >= f.currentTerm && m.reply == HandleAppend(f, m.args).1 && !m.reply.success
    requires forall j :: 0 < j < |f.log.records| ==> f.log.records[j].term != INVALID_TERM
    requires s.log.base == 0 < |s.log.records| && s.log.records[0].term == INVALID_TERM && TermsAscend(s.log.records)
    ensures LosesNothing(f, s, m, probe)
  {
    AcceptExact(f, m.args);
    ConflictIsFirst(f, m.args);
    hide HandleAppend, TermsAscend;
    var next, next' := s.nextIndex[m.from], HandleAppendReply(s, m.from, m.args, m.reply).nextIndex[m.from];
    hide HandleAppendReply;
    if Probes(s, probe) && probe.prevLogIndex <= m.args.prevLogIndex && next' <= probe.prevLogIndex < next {
      ConflictBackup(f, m.args, s, m.from, probe);
    }
  }

  /** Over every run, for every request that a follower rejected at some time and whose reply counts at another. */
  lemma BackupLosesNothing(states: seq<Cluster>, steps: seq<Step>, a: nat, k: nat, m: AppendRepMsg, probe: AppendArgs)
    requires Run(states, steps) && OwnTermVotes(states, steps) && a < |states| && k < |states|
    requires m in states[k].appendReps && m.from < |states[a].servers| && m.args.leaderId < |states[k].servers|
    requires var f := states[a].servers[m.from];
             Readable(f, m.args) && m.args.term >= f.currentTerm && m.reply == HandleAppend(f, m.args).1 && !m.reply.success
    requires AppendReplyCounts(states[k].servers[m.args.leaderId], m.args, m.reply)
    ensures CanHandleReply(states[k].servers[m.args.leaderId], m)
    ensures LosesNothing(states[a].servers[m.from], states[k].servers[m.args.leaderId], m, probe)
  {
    var f, s := states[a].servers[m.from], states[k].servers[m.args.leaderId];
    TermsUpToOwn(states, steps, a, m.from);
    TermsUpToOwn(states, steps, k, m.args.leaderId);
    RejectionTerm(f, m.args);
    RejectionOk(states, steps, k, m);
    hide Run, OwnTermVotes, HandleAppend, LosesNothing, TermsAscend;
    RejectedProbe(f, s, m, probe);
  }

  lemma RejectionTerm(f: Server, args: AppendArgs)
    requires Readable(f, args)
    ensures HandleAppend(f, args).1.term == f.currentTerm
  {
    hide ScanFor;
  }

  /**
   * Such a probe may be skipped: the leader has entries of terms 2, 2, 3 and the follower of 2, 2, 2. The probe at 3 is
   * rejected, and the next one is at 0, although the one at 2 would have been accepted.
   */
  lemma SkipsAccepted(s: Server, f: Server, args: AppendArgs, probe: AppendArgs)
    requires s.log.base == f.log.base == 0 && |s.log.records| == |f.log.records| == 4
    requires s.log.records[0].term == f.log.records[0].term == INVALID_TERM
    requires s.log.records[1].term == s.log.records[2].term == 2 && s.log.records[3].term == 3
    requires f.log.records[1].term == f.log.records[2].term == f.log.records[3].term == 2
    requires args.term == probe.term == s.currentTerm >= f.currentTerm
    requires args.prevLogIndex == 3 == args.prevLogTerm && probe.prevLogIndex == 2 == probe.prevLogTerm
    ensures var (f', reply) := HandleAppend(f, args);
            !reply.success && BackUp(s, 4, reply) == 1 && Probes(s, probe) && HandleAppend(f', probe).1.success
  {
    assert TermsAscend(f.log.records) && TermsAscend(s.log.records);
    ConflictIsFirst(f, args);
    AcceptExact(HandleAppend(f, args).0, probe);
    assert s.log.records[1].term == HandleAppend(f, args).1.conflictTerm;
    ScanForIsExact(s.log.records, 2, 0);
    hide HandleAppend, ScanFor;
  }
}
