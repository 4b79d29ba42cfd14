/**
 * One Raft server in place: the object whose fields the handlers update under its lock. Each method is
 * proved to take the server's value to what the function of the same block in RaftServer.dfy says.
 */
module RaftNode {
  import opened KvTypes
  import opened RaftLog
  import opened RaftServer
  import opened Majority
  import opened ElectionOrder

  // ---------- what the loops over peers send ----------

  /** The votes asked for by the loop of startElection when it has passed k peers. */
  function VoteRequests(s: Server, k: nat): seq<(nat, VoteArgs)>
    requires |s.log.records| > 0
  {
    if k == 0 then []
    else VoteRequests(s, k - 1) + if k - 1 == s.me then [] else [(k - 1, VoteRequest(s))]
  }

  /** Every other peer is asked, once, and each for the same. */
  lemma {:induction false} VoteRequestsAreAll(s: Server, k: nat, p: nat, args: VoteArgs)
    requires |s.log.records| > 0
    ensures (p, args) in VoteRequests(s, k) <==> p < k && p != s.me && args == VoteRequest(s)
    ensures forall i, j :: 0 <= i < j < |VoteRequests(s, k)| ==> VoteRequests(s, k)[i].0 < VoteRequests(s, k)[j].0 < k
    ensures forall i :: 0 <= i < |VoteRequests(s, k)| ==> VoteRequests(s, k)[i].0 < k
  {
    if k > 0 {
      VoteRequestsAreAll(s, k - 1, p, args);
    }
  }

  /** What the loop of startReplication has sent when it has passed k peers. */
  function ReplicationMessages(s: Server, k: nat): seq<(nat, Outgoing)>
    requires |s.log.records| > 0 && k <= |s.nextIndex|
    requires forall p :: 0 <= p < |s.nextIndex| && p != s.me ==> s.nextIndex[p] <= s.log.Size()
  {
    if k == 0 then []
    else ReplicationMessages(s, k - 1) + if k - 1 == s.me then [] else [(k - 1, ReplicationMessage(s, k - 1))]
  }

  /**
   * What is due to a peer: the stored snapshot with Base and its term if it needs an entry at or below Base, and
   * otherwise everything from its nextIndex on, behind the entry before.
   */
  ghost predicate IsDue(s: Server, p: nat, out: Outgoing)
    requires p < |s.nextIndex| && |s.log.records| > 0 && s.nextIndex[p] <= s.log.Size()
  {
    var log, next := s.log, s.nextIndex[p];
    match out
    case SendSnapshot(args) =>
      && next <= log.base && args.term == s.currentTerm && args.leaderId == s.me
      && args.lastIncludedIndex == log.base && args.lastIncludedTerm == log.Get(log.base).term
      && args.data == s.persister.snapshot
    case SendAppend(args) =>
      && next > log.base && args.term == s.currentTerm && args.leaderId == s.me
      && args.prevLogIndex == next - 1 && args.prevLogTerm == log.Get(next - 1).term
      && |args.entries| == log.Size() - next && (forall i :: next <= i < log.Size() ==> args.entries[i - next] == log.Get(i))
      && args.leaderCommit == s.commitIndex
  }

  lemma MessageIsDue(s: Server, p: nat, out: Outgoing)
    requires p < |s.nextIndex| && |s.log.records| > 0 && s.nextIndex[p] <= s.log.Size()
    ensures out == ReplicationMessage(s, p) <==> IsDue(s, p, out)
  {
    var next := s.nextIndex[p];
    if out.SendAppend? && next > s.log.base && IsDue(s, p, out) {
      var entries, due := out.append.entries, s.log.records[next - s.log.base..];
      forall i | 0 <= i < |due| ensures entries[i] == due[i] {
        assert entries[next + i - next] == s.log.Get(next + i);
      }
      assert entries == due;
    }
  }

  /** Every other peer is sent what its own nextIndex calls for, once. */
  lemma {:induction false} ReplicationMessagesAreAll(s: Server, k: nat, p: nat, out: Outgoing)
    requires |s.log.records| > 0 && k <= |s.nextIndex|
    requires forall q :: 0 <= q < |s.nextIndex| && q != s.me ==> s.nextIndex[q] <= s.log.Size()
    ensures (p, out) in ReplicationMessages(s, k) <==> p < k && p != s.me && IsDue(s, p, out)
    ensures forall i, j :: 0 <= i < j < |ReplicationMessages(s, k)| ==> ReplicationMessages(s, k)[i].0 < ReplicationMessages(s, k)[j].0 < k
    ensures forall i :: 0 <= i < |ReplicationMessages(s, k)| ==> ReplicationMessages(s, k)[i].0 < k
  {
    hide IsDue, ReplicationMessage;
    if k > 0 {
      ReplicationMessagesAreAll(s, k - 1, p, out);
      if p == k - 1 != s.me {
        MessageIsDue(s, p, out);
      }
    }
  }

  lemma AllAreDue(s: Server)
    requires |s.log.records| > 0
    requires forall q :: 0 <= q < |s.nextIndex| && q != s.me ==> s.nextIndex[q] <= s.log.Size()
    ensures forall p: nat, out ::
              (p, out) in ReplicationMessages(s, |s.nextIndex|) <==> p < |s.nextIndex| && p != s.me && IsDue(s, p, out)
  {
    hide IsDue, ReplicationMessage, ReplicationMessages;
    forall p: nat, out
      ensures (p, out) in ReplicationMessages(s, |s.nextIndex|) <==> p < |s.nextIndex| && p != s.me && IsDue(s, p, out)
    {
      ReplicationMessagesAreAll(s, |s.nextIndex|, p, out);
    }
  }

  /** The entries behind the new Base are the ones that were there. */
  ghost predicate KeepsBehind(log: Log, log': Log) {
    && log.base <= log'.base
    && log'.Size() == (if log.Size() > log'.base + 1 then log.Size() else log'.base + 1)
    && forall i :: log'.base < i < log'.Size() ==> log'.Get(i) == log.Get(i)
  }

  lemma CompactKeepsBehind(log: Log, index: int, term: nat)
    requires log.base <= index
    ensures var log' := Compact(log, index, term);
            log'.base == index && |log'.records| > 0 && log'.records[0].term == term && KeepsBehind(log, log')
  {
  }

  /** A snapshot of a current term past Base becomes the new Base, with its own term there; any other changes nothing. */
  ghost predicate Installed(s: Server, args: SnapshotArgs, s': Server) {
    if args.term >= s.currentTerm && args.lastIncludedIndex > s.log.base
    then && s'.log.base == args.lastIncludedIndex && |s'.log.records| > 0 && s'.log.records[0].term == args.lastIncludedTerm
         && KeepsBehind(s.log, s'.log)
         && s'.commitIndex == (if s.commitIndex < s'.log.base then s'.log.base else s.commitIndex)
         && s'.lastApplied == (if s.lastApplied < s'.log.base then s'.log.base else s.lastApplied)
         && s'.persister == Persister(Some(Disk(s'.currentTerm, s'.votedFor, s'.log)),
                                      if args.data.Some? then args.data else s.persister.snapshot)
    else && s'.log == s.log && s'.commitIndex == s.commitIndex && s'.lastApplied == s.lastApplied
         && s'.persister.snapshot == s.persister.snapshot
  }

  lemma InstallEffect(s: Server, args: SnapshotArgs)
    ensures Installed(s, args, InstallSnapshot(s, args))
  {
    if args.lastIncludedIndex > s.log.base {
      CompactKeepsBehind(s.log, args.lastIncludedIndex, args.lastIncludedTerm);
    }
    hide Compact, KeepsBehind;
  }

  /** The loop of firstLogFor. */
  method FirstLogFor(records: seq<LogRecord>, term: nat) returns (idx: nat)
    ensures idx == ScanFor(records, term, 0)
  {
    idx := 0;
    while idx < |records|
      invariant 0 <= idx <= |records|
      invariant ScanFor(records, term, 0) == ScanFor(records, term, idx)
    {
      if records[idx].term == term {
        return;
      } else if records[idx].term > term {
        return INVALID_INDEX;
      }
      idx := idx + 1;
    }
    idx := INVALID_INDEX;
  }

  class Raft {
    const me: nat
    const peers: nat
    const nextIndex: array<int>
    const matchIndex: array<int>
    var role: Role
    var currentTerm: nat
    var votedFor: int
    var log: Log
    var commitIndex: int
    var lastApplied: int
    var pending: set<nat>
    var votes: map<nat, nat>
    var batch: Option<seq<LogRecord>>
    var delivered: nat
    var persister: Persister

    ghost predicate Valid() {
      me < peers && nextIndex.Length == peers && matchIndex.Length == peers && nextIndex != matchIndex
    }

    ghost function View(): Server
      reads this, nextIndex, matchIndex
    {
      Server(me, peers, role, currentTerm, votedFor, log, nextIndex[..], matchIndex[..], commitIndex, lastApplied,
             pending, votes, batch, delivered, persister)
    }

    // ---------- persistence and restart ----------

    /** Term, vote and log are saved. */
    predicate OnDisk()
      reads this
    {
      persister.state == Some(Disk(currentTerm, votedFor, log))
    }

    constructor Make(me: nat, peers: nat, persister: Persister)
      requires me < peers
      ensures Valid() && fresh(nextIndex) && fresh(matchIndex)
      ensures View() == Boot(me, peers, persister)
    {
      this.me := me;
      this.peers := peers;
      this.persister := persister;
      role := Follower;
      currentTerm, votedFor, log := 1, NO_VOTE, Log([DUMMY], 0);
      nextIndex := new int[peers](_ => 0);
      matchIndex := new int[peers](_ => 0);
      commitIndex, lastApplied := 0, 0;
      pending, votes, batch, delivered := {}, map[], None, 0;
      new;
      ReadPersist();
      if log.base > 0 {
        commitIndex := log.base;
        lastApplied := log.base;
      }
      assert nextIndex[..] == seq(peers, _ => 0) && matchIndex[..] == seq(peers, _ => 0);
    }

    method ReadPersist()
      modifies this`currentTerm, this`votedFor, this`log
      ensures persister.state.None? ==> currentTerm == old(currentTerm) && votedFor == old(votedFor) && log == old(log)
      ensures persister.state.Some? ==> persister.state.value == Disk(currentTerm, votedFor, log)
    {
      if persister.state.Some? {
        var disk := persister.state.value;
        currentTerm := disk.currentTerm;
        votedFor := disk.votedFor;
        log := disk.log;
      }
    }

    method PersistLocked(snapshot: Option<KvSnapshot>)
      modifies this`persister
      ensures View() == PersistSnapshot(old(View()), snapshot)
      ensures OnDisk() && persister.snapshot == if snapshot.None? then old(persister.snapshot) else snapshot
    {
      var kept := if snapshot.None? then persister.snapshot else snapshot;
      persister := Persister(Some(Disk(currentTerm, votedFor, log)), kept);
    }

    // ---------- role changes ----------

    method BecomeFollowerLocked(term: nat)
      modifies this
      ensures View() == BecomeFollower(old(View()), term)
      ensures term >= old(currentTerm) ==> currentTerm == term && role == Follower
      ensures term > old(currentTerm) ==> votedFor == NO_VOTE
      ensures currentTerm >= old(currentTerm) && (votedFor != old(votedFor) ==> currentTerm > old(currentTerm) && votedFor == NO_VOTE)
      ensures old(OnDisk()) || currentTerm != old(currentTerm) ==> OnDisk()
    {
      if term < currentTerm {
        return;
      }
      var shouldPersist := term != currentTerm;
      if term > currentTerm {
        votedFor := NO_VOTE;
      }
      role := Follower;
      currentTerm := term;
      if shouldPersist {
        PersistLocked(None);
      }
    }

    method BecomeCandidateLocked()
      modifies this
      ensures View() == BecomeCandidate(old(View()))
      ensures old(role) != Leader ==> currentTerm == old(currentTerm) + 1 && votedFor == me && OnDisk()
    {
      if role == Leader {
        return;
      }
      role := Candidate;
      currentTerm := currentTerm + 1;
      votedFor := me;
      PersistLocked(None);
    }

    method BecomeLeaderLocked()
      requires Valid()
      modifies this, nextIndex, matchIndex
      ensures View() == BecomeLeader(old(View()))
      ensures role == if old(role) == Candidate then Leader else old(role)
      ensures role == Leader && old(role) != Leader ==> forall p :: 0 <= p < peers ==> nextIndex[p] == log.Size() && matchIndex[p] == log.base
    {
      if role != Candidate {
        return;
      }
      role := Leader;
      for peer := 0 to peers
        modifies nextIndex, matchIndex
        invariant forall p :: 0 <= p < peer ==> nextIndex[p] == log.Size() && matchIndex[p] == log.base
      {
        nextIndex[peer] := log.Size();
        matchIndex[peer] := log.base;
      }
      ghost var size, base := log.Size(), log.base;
      assert nextIndex[..] == seq(peers, _ => size) && matchIndex[..] == seq(peers, _ => base);
    }

    // ---------- elections ----------

    method ElectionTimeoutLocked()
      modifies this
      ensures View() == ElectionTimeout(old(View()))
      ensures if old(role) == Leader then View() == old(View())
              else role == Candidate && currentTerm in pending && currentTerm > old(currentTerm) && OnDisk()
    {
      if role != Leader {
        BecomeCandidateLocked();
        pending := pending + {currentTerm};
      }
    }

    method StartElectionLocked(term: nat) returns (asked: seq<(nat, VoteArgs)>)
      requires Valid() && |log.records| > 0
      modifies this`pending, this`votes
      ensures View() == StartElection(old(View()), term)
      ensures asked == if AsksVotes(old(View()), term) then VoteRequests(old(View()), peers) else []
      ensures role == Candidate && currentTerm == term ==> votes == old(votes)[term := 1]
    {
      asked := [];
      pending := pending - {term};
      if !(currentTerm == term && role == Candidate) {
        return;
      }
      var count := 0;
      ghost var s := old(View());
      for peer := 0 to peers
        invariant asked == VoteRequests(s, peer)
        invariant count == if peer > me then 1 else 0
      {
        if peer == me {
          count := count + 1;
        } else {
          asked := asked + [(peer, VoteArgs(currentTerm, me, log.Size() - 1, log.LastLogTerm()))];
        }
      }
      votes := votes[term := count];
    }

    method RequestVote(args: VoteArgs) returns (reply: VoteReply)
      requires |log.records| > 0
      modifies this
      ensures (View(), reply) == HandleVote(old(View()), args)
      ensures reply.term == old(currentTerm) && (args.term >= old(currentTerm) ==> currentTerm == args.term)
      ensures reply.voteGranted ==> votedFor == args.candidateId && currentTerm == args.term && OnDisk()
      ensures reply.voteGranted <==>
                && old(currentTerm) <= args.term && (old(currentTerm) == args.term ==> old(votedFor) == NO_VOTE)
                && !Behind(args.lastLogTerm, args.lastLogIndex, old(log.LastLogTerm()), old(log.Size()) - 1)
    {
      reply := VoteReply(currentTerm, false);
      if args.term < currentTerm {
        return;
      }
      if args.term > currentTerm {
        BecomeFollowerLocked(args.term);
      }
      if votedFor != NO_VOTE {
        return;
      }
      var lastTerm, lastIndex := log.LastLogTerm(), log.Size() - 1;
      var moreUpToDate := if lastTerm != args.lastLogTerm then lastTerm > args.lastLogTerm else lastIndex > args.lastLogIndex;
      if moreUpToDate {
        return;
      }
      reply := reply.(voteGranted := true);
      votedFor := args.candidateId;
      PersistLocked(None);
    }

    method CountVote(election: nat, reply: VoteReply)
      requires Valid() && election in votes
      modifies this, nextIndex, matchIndex
      ensures View() == HandleVoteReply(old(View()), election, reply)
      ensures reply.term > old(currentTerm) ==> currentTerm == reply.term && role == Follower
      ensures reply.term <= old(currentTerm) ==> currentTerm == old(currentTerm)
      ensures reply.term <= old(currentTerm) && old(role) == Candidate ==>
                && votes == old(votes)[election := old(votes[election]) + if reply.voteGranted then 1 else 0]
                && role == if 2 * votes[election] > peers then Leader else Candidate
      ensures reply.term <= old(currentTerm) && old(role) != Candidate ==> role == old(role) && votes == old(votes)
    {
      if reply.term > currentTerm {
        BecomeFollowerLocked(reply.term);
        return;
      }
      if !(currentTerm == currentTerm && role == Candidate) {
        return;
      }
      if reply.voteGranted {
        votes := votes[election := votes[election] + 1];
      } else {
        votes := votes[election := votes[election]];
      }
      if votes[election] > peers / 2 {
        BecomeLeaderLocked();
      }
    }

    // ---------- replication ----------

    method StartLocked(command: Op) returns (index: int, term: nat, isLeader: bool)
      modifies this
      ensures View() == Start(old(View()), command)
      ensures isLeader == (old(role) == Leader)
      ensures isLeader ==> index == log.Size() - 1 && term == currentTerm && log.base <= index &&
                           log.Get(index) == LogRecord(term, true, Some(command))
      ensures !isLeader ==> index == 0 && term == 0
    {
      if role != Leader {
        return 0, 0, false;
      }
      log := log.Append(LogRecord(currentTerm, true, Some(command)));
      PersistLocked(None);
      return log.Size() - 1, currentTerm, true;
    }

    method StartReplicationLocked(term: nat) returns (sent: seq<(nat, Outgoing)>, remained: bool)
      requires Valid() && |log.records| > 0
      requires forall p :: 0 <= p < peers && p != me ==> nextIndex[p] <= log.Size()
      modifies nextIndex, matchIndex
      ensures View() == StartReplication(old(View()), term)
      ensures remained ==>
                && matchIndex[..] == old(matchIndex[..])[me := log.Size() - 1]
                && nextIndex[..] == old(nextIndex[..])[me := log.Size()]
      ensures remained == !ContextLost(old(View()), Leader, term)
      ensures sent == if remained then ReplicationMessages(old(View()), peers) else []
      ensures remained ==>
                forall p: nat, out :: (p, out) in sent <==> p < peers && p != me && IsDue(old(View()), p, out)
    {
      hide IsDue;
      sent := [];
      if !(currentTerm == term && role == Leader) {
        return sent, false;
      }
      remained := true;
      ghost var s := old(View());
      for peer := 0 to peers
        modifies nextIndex, matchIndex
        invariant nextIndex[..] == if peer > me then s.nextIndex[me := log.Size()] else s.nextIndex
        invariant matchIndex[..] == if peer > me then s.matchIndex[me := log.Size() - 1] else s.matchIndex
        invariant sent == ReplicationMessages(s, peer)
      {
        if peer == me {
          matchIndex[peer] := log.Size() - 1;
          nextIndex[peer] := log.Size();
        } else {
          assert nextIndex[peer] == nextIndex[..][peer] == s.nextIndex[peer];
          var prevIdx := nextIndex[peer] - 1;
          if prevIdx < log.base {
            var args := SnapshotArgs(currentTerm, me, log.base, log.records[0].term, persister.snapshot);
            sent := sent + [(peer, SendSnapshot(args))];
          } else {
            var args := AppendArgs(currentTerm, me, prevIdx, log.Get(prevIdx).term,
                                   log.records[prevIdx + 1 - log.base..], commitIndex);
            sent := sent + [(peer, SendAppend(args))];
          }
        }
      }
      AllAreDue(s);
    }

    method AppendEntries(args: AppendArgs) returns (reply: AppendReply)
      requires Readable(View(), args)
      modifies this
      ensures (View(), reply) == HandleAppend(old(View()), args)
      ensures reply.success <==>
                && args.term >= old(currentTerm) && args.prevLogIndex < old(log.Size())
                && old(log.Get(args.prevLogIndex).term) == args.prevLogTerm
      ensures reply.success ==> log.Size() == args.prevLogIndex + 1 + |args.entries| && OnDisk()
      ensures args.term >= old(currentTerm) && args.prevLogIndex >= old(log.Size()) ==>
                reply.conflictTerm == INVALID_TERM && reply.conflictIndex == log.Size()
      ensures args.term >= old(currentTerm) && args.prevLogIndex < old(log.Size()) && !reply.success ==>
                && reply.conflictTerm == log.Get(args.prevLogIndex).term
                && (TermsAscend(log.records) ==> IsFirstOf(log.records, reply.conflictTerm, reply.conflictIndex))
      ensures !reply.success ==> log == old(log)
      ensures commitIndex == if reply.success && args.leaderCommit > old(commitIndex) then args.leaderCommit else old(commitIndex)
      ensures reply.term == old(currentTerm) && log.base == old(log.base)
      ensures args.term >= old(currentTerm) ==> currentTerm == args.term && role == Follower
    {
      reply := AppendReply(currentTerm, false, 0, INVALID_TERM);
      if args.term < currentTerm {
        return;
      }
      if args.term >= currentTerm {
        BecomeFollowerLocked(args.term);
      }
      if args.prevLogIndex >= log.Size() {
        reply := reply.(conflictTerm := INVALID_TERM, conflictIndex := log.Size());
        return;
      }
      if log.Get(args.prevLogIndex).term != args.prevLogTerm {
        reply := reply.(conflictTerm := log.Get(args.prevLogIndex).term);
        var first := FirstLogFor(log.records, reply.conflictTerm);
        if TermsAscend(log.records) {
          ScanForIsExact(log.records, reply.conflictTerm, 0);
        }
        reply := reply.(conflictIndex := first);
        return;
      }
      log := log.(records := log.records[..args.prevLogIndex + 1 - log.base] + args.entries);
      PersistLocked(None);
      reply := reply.(success := true);
      if args.leaderCommit > commitIndex {
        commitIndex := args.leaderCommit;
      }
    }

    method GetMajorityIndexLocked() returns (m: int)
      requires Valid()
      ensures m == MajorityIndex(matchIndex[..])
      ensures IsQuorum(Reaching(matchIndex[..], m), peers)
      ensures forall x :: x > m ==> !IsQuorum(Reaching(matchIndex[..], x), peers)
    {
      var tmpIndexes := new int[matchIndex.Length](i requires 0 <= i < matchIndex.Length reads matchIndex => matchIndex[i]);
      assert tmpIndexes[..] == matchIndex[..];
      SortInts(tmpIndexes);
      MajorityIndexIsLargest(matchIndex[..]);
      var majorityIdx := (tmpIndexes.Length - 1) / 2;
      assert tmpIndexes[majorityIdx] == tmpIndexes[..][majorityIdx];
      return tmpIndexes[majorityIdx];
    }

    /** The next probe after a rejection, never past the one before. */
    method BackUpLocked(peer: nat, reply: AppendReply)
      requires Valid() && peer < peers
      modifies nextIndex
      ensures nextIndex[..] == old(nextIndex[..])[peer := BackUp(old(View()), old(nextIndex[peer]), reply)]
      ensures nextIndex[peer] <= old(nextIndex[peer])
      ensures reply.conflictTerm == INVALID_TERM && reply.conflictIndex <= old(nextIndex[peer]) ==>
                nextIndex[peer] == reply.conflictIndex
    {
      var prevNext := nextIndex[peer];
      if reply.conflictTerm == INVALID_TERM {
        nextIndex[peer] := reply.conflictIndex;
      } else {
        var firstTermIndex := FirstLogFor(log.records, reply.conflictTerm);
        if firstTermIndex != INVALID_INDEX {
          nextIndex[peer] := firstTermIndex;
        } else {
          nextIndex[peer] := reply.conflictIndex;
        }
      }
      if nextIndex[peer] > prevNext {
        nextIndex[peer] := prevNext;
      }
    }

    /** The commit rule: the largest index that a majority reached, if it is new and of the leader's own term. */
    method AdvanceCommitLocked()
      requires Valid() && log.base <= commitIndex && forall p :: 0 <= p < peers ==> matchIndex[p] < log.Size()
      modifies this`commitIndex
      ensures View() == AdvanceCommit(old(View()))
      ensures commitIndex >= old(commitIndex)
      ensures forall m :: IsLargestReached(matchIndex[..], m) ==>
                && m < log.Size()
                && commitIndex == if m > old(commitIndex) && log.Get(m).term == currentTerm then m else old(commitIndex)
    {
      var majorityMatched := GetMajorityIndexLocked();
      MajorityIndexIsMember(matchIndex[..]);
      forall m | IsLargestReached(matchIndex[..], m) ensures m == majorityMatched {
        LargestReachedIsMajority(matchIndex[..], m);
      }
      hide MajorityIndex, IsLargestReached;
      if majorityMatched > commitIndex && log.Get(majorityMatched).term == currentTerm {
        commitIndex := majorityMatched;
      }
    }

    method ReplyToAppend(peer: nat, args: AppendArgs, reply: AppendReply)
      requires Valid() && peer < peers
      requires AppendReplyCounts(View(), args, reply) ==>
                 && log.base <= commitIndex
                 && args.prevLogIndex + |args.entries| < log.Size()
                 && forall p :: 0 <= p < peers ==> matchIndex[p] < log.Size()
      modifies this, nextIndex, matchIndex
      ensures View() == HandleAppendReply(old(View()), peer, args, reply)
      ensures log == old(log)
      ensures reply.term > old(currentTerm) ==> currentTerm == reply.term && role == Follower
      ensures AppendReplyCounts(old(View()), args, reply) && reply.success ==>
                && matchIndex[..] == old(matchIndex[..])[peer := args.prevLogIndex + |args.entries|]
                && nextIndex[..] == old(nextIndex[..])[peer := args.prevLogIndex + |args.entries| + 1]
                && forall m :: IsLargestReached(matchIndex[..], m) ==>
                     && m < log.Size()
                     && commitIndex == if m > old(commitIndex) && log.Get(m).term == currentTerm then m else old(commitIndex)
    {
      hide BackUp, AdvanceCommit, IsLargestReached;
      if reply.term > currentTerm {
        BecomeFollowerLocked(reply.term);
        return;
      }
      if !(currentTerm == args.term && role == Leader) {
        return;
      }
      if !reply.success {
        BackUpLocked(peer, reply);
        return;
      }
      ghost var s := View();
      matchIndex[peer] := args.prevLogIndex + |args.entries|;
      nextIndex[peer] := matchIndex[peer] + 1;
      assert matchIndex[..] == s.matchIndex[peer := args.prevLogIndex + |args.entries|];
      assert nextIndex[..] == s.nextIndex[peer := args.prevLogIndex + |args.entries| + 1];
      AdvanceCommitLocked();
    }

    // ---------- snapshots ----------

    method Snapshot(index: int, snapshot: KvSnapshot)
      requires log.base <= index <= commitIndex ==> index < log.Size()
      modifies this
      ensures View() == TakeSnapshot(old(View()), index, snapshot)
      ensures log.base >= old(log.base) && commitIndex == old(commitIndex) && (log != old(log) ==> OnDisk())
    {
      if index > commitIndex || index < log.base {
        return;
      }
      var newLog := Log([LogRecord(log.Get(index).term, false, None)], index);
      newLog := CopySuffix(newLog, index);
      log := newLog;
      PersistLocked(Some(snapshot));
    }

    /** The loop of Snapshot and InstallSnapshot that carries the records after `index` over. */
    method CopySuffix(start: Log, index: int) returns (newLog: Log)
      requires log.base <= index
      ensures newLog == start.(records := start.records +
                if index + 1 < log.Size() then log.records[index + 1 - log.base..] else [])
    {
      newLog := start;
      var i := index + 1;
      while i < log.Size()
        invariant index + 1 <= i
        invariant i <= log.Size() ==> newLog == start.(records := start.records + log.records[index + 1 - log.base..i - log.base])
        invariant i > log.Size() ==> i == index + 1 && newLog == start
      {
        newLog := newLog.Append(log.Get(i));
        assert log.records[index + 1 - log.base..i + 1 - log.base] ==
               log.records[index + 1 - log.base..i - log.base] + [log.records[i - log.base]];
        i := i + 1;
      }
    }

    method InstallSnapshotLocked(args: SnapshotArgs)
      modifies this
      ensures View() == InstallSnapshot(old(View()), args)
      ensures log.base >= old(log.base) && commitIndex >= old(commitIndex) && lastApplied >= old(lastApplied)
      ensures Installed(old(View()), args, View())
    {
      InstallEffect(View(), args);
      hide Installed;
      if args.term < currentTerm {
        return;
      }
      if args.term >= currentTerm {
        BecomeFollowerLocked(args.term);
      }
      if args.lastIncludedIndex <= log.base {
        return;
      }
      var newLog := Log([LogRecord(args.lastIncludedTerm, false, None)], args.lastIncludedIndex);
      newLog := CopySuffix(newLog, args.lastIncludedIndex);
      assert newLog == Compact(log, args.lastIncludedIndex, args.lastIncludedTerm);
      hide Compact;
      log := newLog;
      if args.lastIncludedIndex > commitIndex {
        commitIndex := args.lastIncludedIndex;
      }
      if args.lastIncludedIndex > lastApplied {
        lastApplied := args.lastIncludedIndex;
      }
      PersistLocked(args.data);
    }

    /** The reply to a snapshot: the next message starts right behind it. */
    method ReplyToSnapshot(peer: nat, args: SnapshotArgs, replyTerm: nat)
      requires Valid() && peer < peers
      modifies this, nextIndex, matchIndex
      ensures View() == HandleSnapshotReply(old(View()), peer, args, replyTerm)
      ensures replyTerm > old(currentTerm) ==> currentTerm == replyTerm && role == Follower
      ensures replyTerm <= old(currentTerm) ==> nextIndex[peer] == matchIndex[peer] + 1 == args.lastIncludedIndex + 1
    {
      if replyTerm > currentTerm {
        BecomeFollowerLocked(replyTerm);
        return;
      }
      nextIndex[peer] := args.lastIncludedIndex + 1;
      matchIndex[peer] := args.lastIncludedIndex;
    }

    // ---------- applying ----------

    method CollectEntries()
      requires batch.None?
      requires log.base <= lastApplied && lastApplied < log.Size() && commitIndex < log.Size()
      modifies this`batch, this`delivered
      ensures View() == CollectBatch(old(View()))
      ensures && batch.Some? && delivered == 0
              && |batch.value| == (if commitIndex > lastApplied then commitIndex - lastApplied else 0)
              && forall i :: lastApplied < i <= commitIndex ==> batch.value[i - lastApplied - 1] == log.Get(i)
    {
      var entries := [];
      var i := lastApplied + 1;
      while i <= commitIndex
        invariant lastApplied + 1 <= i
        invariant i <= commitIndex + 1 || i == lastApplied + 1
        invariant i <= log.Size()
        invariant entries == log.records[lastApplied + 1 - log.base..i - log.base]
      {
        entries := entries + [log.Get(i)];
        i := i + 1;
      }
      batch := Some(entries);
      delivered := 0;
    }
  }
}
