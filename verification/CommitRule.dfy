/**
 * The leader's commit rule on one server with compaction and snapshots (src/raft/raft_replication.go:147-156,
 * raft_roleTrans.go:47-51, raft_snapshot.go): over every run of one process, when commitIndex advances,
 * every match index that was counted is the leader's own log or was confirmed by a success reply in this
 * term. The optimistic matchIndex = Base of a new leader and the unchecked replies to snapshots never
 * count, because Base and everything ever offered as a snapshot stay at or below commitIndex.
 */
module CommitRule {
  import opened FiniteSets
  import opened KvTypes
  import opened RaftLog
  import opened RaftServer
  import opened Majority

  /** A process, what was confirmed to it as the leader it now is, and the snapshots it has offered. */
  datatype Process = Process(s: Server, confirmed: set<(nat, int)>, offered: set<int>)

  datatype Event =
    | Timeout
    | Elect(term: nat)
    | Vote(voteArgs: VoteArgs)
    | VoteBack(election: nat, voteReply: VoteReply)
    | Client(op: Op)
    | Replicate(term: nat)
    | Append(appendArgs: AppendArgs)
    | AppendBack(peer: nat, appendArgs: AppendArgs, appendReply: AppendReply)
    | Snapshot(index: int, data: KvSnapshot)
    | Install(snapshotArgs: SnapshotArgs)
    | SnapshotBack(peer: nat, snapshotArgs: SnapshotArgs, replyTerm: nat)
    | Crash

  predicate Possible(p: Process, e: Event) {
    var s := p.s;
    && s.me < s.peers == |s.nextIndex| == |s.matchIndex| && |s.log.records| > 0
    && match e
       case VoteBack(election, _) => election in s.votes
       case Append(args) => Readable(s, args)
       case AppendBack(peer, args, reply) =>
         peer < s.peers && (AppendReplyCounts(s, args, reply) ==>
           && s.log.base <= s.commitIndex
           && args.prevLogIndex + |args.entries| < s.log.Size()
           && forall q :: 0 <= q < s.peers ==> s.matchIndex[q] < s.log.Size())
       case Snapshot(index, _) => s.log.base <= index <= s.commitIndex ==> index < s.log.Size()
       case SnapshotBack(peer, args, _) => peer < s.peers && args.lastIncludedIndex in p.offered
       case _ => true
  }

  function Handle(p: Process, e: Event): Server
    requires Possible(p, e)
  {
    var s := p.s;
    match e
    case Timeout => ElectionTimeout(s)
    case Elect(term) => StartElection(s, term)
    case Vote(args) => HandleVote(s, args).0
    case VoteBack(election, reply) => HandleVoteReply(s, election, reply)
    case Client(op) => Start(s, op)
    case Replicate(term) => StartReplication(s, term)
    case Append(args) => HandleAppend(s, args).0
    case AppendBack(peer, args, reply) => HandleAppendReply(s, peer, args, reply)
    case Snapshot(index, data) => TakeSnapshot(s, index, data)
    case Install(args) => InstallSnapshot(s, args)
    case SnapshotBack(peer, args, replyTerm) => HandleSnapshotReply(s, peer, args, replyTerm)
    case Crash => Boot(s.me, s.peers, s.persister)
  }

  function Step(p: Process, e: Event): Process
    requires Possible(p, e)
  {
    var s := p.s;
    var s' := Handle(p, e);
    match e
    case VoteBack(_, _) => Process(s', if s.role != Leader then {} else p.confirmed, p.offered)
    case Replicate(term) =>
      // The leader counts its own log, and may offer its snapshot to any peer.
      if ContextLost(s, Leader, term) then p
      else Process(s', p.confirmed + {(s.me, s.log.Size() - 1)}, p.offered + {s.log.base})
    case AppendBack(peer, args, reply) =>
      if AppendReplyCounts(s, args, reply) && reply.success
      then Process(s', p.confirmed + {(peer, args.prevLogIndex + |args.entries|)}, p.offered)
      else p.(s := s')
    case Crash => Process(s', {}, {})
    case _ => p.(s := s')
  }

  // ---------- the invariant ----------

  ghost predicate MatchBacked(s: Server, confirmed: set<(nat, int)>) {
    s.role == Leader ==>
      forall q: nat :: q < |s.matchIndex| ==> s.matchIndex[q] <= s.commitIndex || (q, s.matchIndex[q]) in confirmed
  }

  ghost predicate Inv(p: Process) {
    && p.s.log.base <= p.s.commitIndex
    && (forall x :: x in p.offered ==> x <= p.s.commitIndex)
    && MatchBacked(p.s, p.confirmed)
    && (p.s.persister.state.Some? ==> p.s.persister.state.value.log == p.s.log)
    && (p.s.persister.state.None? ==> p.s.log.base == 0)
  }

  /** The election, follower and snapshot handlers leave commitIndex, or raise it and lead no more. */
  predicate Modest(s: Server, s': Server) {
    && s'.commitIndex >= s.commitIndex && s'.log.base <= s'.commitIndex
    && (s'.role == Leader ==> s.role == Leader && s'.matchIndex == s.matchIndex)
    && (s'.persister.state.Some? ==> s'.persister.state.value.log == s'.log)
    && (s'.persister.state.None? ==> s'.log.base == 0)
  }

  lemma KeepModest(p: Process, e: Event)
    requires Inv(p) && Possible(p, e)
    requires e.Timeout? || e.Elect? || e.Vote? || e.Client? || e.Append? || e.Snapshot? || e.Install?
    ensures Modest(p.s, Handle(p, e))
  {
    hide MatchBacked;
    if e.Append? || e.Install? || e.Snapshot? {
      KeepLogModest(p, e);
    } else {
      hide IsMoreUpToDate;
    }
  }

  lemma KeepLogModest(p: Process, e: Event)
    requires Inv(p) && Possible(p, e) && (e.Append? || e.Install? || e.Snapshot?)
    ensures Modest(p.s, Handle(p, e))
  {
    match e
    case Append(args) => AppendModest(p.s, args);
    case Install(args) => InstallModest(p.s, args);
    case Snapshot(index, data) => SnapshotModest(p.s, index, data);
  }

  predicate LogSaved(s: Server) {
    && s.log.base <= s.commitIndex && (s.persister.state.Some? ==> s.persister.state.value.log == s.log)
    && (s.persister.state.None? ==> s.log.base == 0)
  }

  lemma AppendModest(s: Server, args: AppendArgs)
    requires LogSaved(s) && Readable(s, args)
    ensures Modest(s, HandleAppend(s, args).0)
  {
    hide ScanFor;
  }

  lemma InstallModest(s: Server, args: SnapshotArgs)
    requires LogSaved(s)
    ensures Modest(s, InstallSnapshot(s, args))
  {
  }

  lemma SnapshotModest(s: Server, index: int, data: KvSnapshot)
    requires LogSaved(s) && (s.log.base <= index <= s.commitIndex ==> index < s.log.Size())
    ensures Modest(s, TakeSnapshot(s, index, data))
  {
  }

  lemma KeepAppendBack(p: Process, e: Event)
    requires Inv(p) && Possible(p, e) && e.AppendBack?
    ensures Inv(Step(p, e))
  {
    hide MajorityIndex, BackUp;
  }

  lemma KeepRest(p: Process, e: Event)
    requires Inv(p) && Possible(p, e) && (e.VoteBack? || e.Replicate? || e.SnapshotBack? || e.Crash?)
    ensures Inv(Step(p, e))
  {
  }

  lemma Keep(p: Process, e: Event)
    requires Inv(p) && Possible(p, e)
    ensures Inv(Step(p, e))
  {
    if e.AppendBack? {
      KeepAppendBack(p, e);
    } else if e.VoteBack? || e.Replicate? || e.SnapshotBack? || e.Crash? {
      KeepRest(p, e);
    } else {
      KeepModest(p, e);
      hide Handle, Possible;
    }
  }

  // ---------- every run ----------

  predicate AllPossible(p: Process, events: seq<Event>)
    decreases |events|
  {
    events == [] || (Possible(p, events[0]) && AllPossible(Step(p, events[0]), events[1..]))
  }

  function After(p: Process, events: seq<Event>): Process
    requires AllPossible(p, events)
    decreases |events|
  {
    if events == [] then p else After(Step(p, events[0]), events[1..])
  }

  lemma {:induction false} InvAfter(p: Process, events: seq<Event>)
    requires Inv(p) && AllPossible(p, events)
    ensures Inv(After(p, events))
    decreases |events|
  {
    hide Inv, Step, Possible;
    if events != [] {
      Keep(p, events[0]);
      InvAfter(Step(p, events[0]), events[1..]);
    }
  }

  /** The peers that confirmed, to this leader in this term, an index of at least m. */
  ghost function Confirmers(p: Process, m: int): set<nat> {
    set c | c in p.confirmed && c.1 >= m && c.0 < p.s.peers :: c.0
  }

  /**
   * Whatever happened before, a reply that raises commitIndex raises it to the largest index that a strict
   * majority has reached, an index of an entry of the leader's term, that a majority has confirmed.
   */
  lemma CommitIsConfirmed(me: nat, peers: nat, events: seq<Event>, e: Event)
    requires var p := Process(Boot(me, peers, Persister(None, None)), {}, {});
             AllPossible(p, events) && e.AppendBack? && Possible(After(p, events), e)
    ensures var p := After(Process(Boot(me, peers, Persister(None, None)), {}, {}), events);
            var p' := Step(p, e);
            var m := p'.s.commitIndex;
            m != p.s.commitIndex ==>
              && m > p.s.commitIndex && m == MajorityIndex(p'.s.matchIndex)
              && p.s.log.base <= m < p.s.log.Size() && p.s.log.Get(m).term == p.s.currentTerm
              && IsQuorum(Confirmers(p', m), peers)
  {
    var start := Process(Boot(me, peers, Persister(None, None)), {}, {});
    InvAfter(start, events);
    PeersStay(start, events);
    var p := After(start, events);
    hide After, AllPossible;
    if Step(p, e).s.commitIndex != p.s.commitIndex {
      CommitStep(p, e);
    }
  }

  lemma CommitStep(p: Process, e: Event)
    requires Inv(p) && Possible(p, e) && e.AppendBack? && Step(p, e).s.commitIndex != p.s.commitIndex
    ensures var p' := Step(p, e);
            var m := p'.s.commitIndex;
            && m > p.s.commitIndex && m == MajorityIndex(p'.s.matchIndex)
            && p.s.log.base <= m < p.s.log.Size() && p.s.log.Get(m).term == p.s.currentTerm
            && IsQuorum(Confirmers(p', m), p.s.peers)
  {
    hide BackUp;
    var p' := Step(p, e);
    var m := p'.s.commitIndex;
    KeepAppendBack(p, e);
    MajorityIndexIsLargest(p'.s.matchIndex);
    MajorityIndexIsMember(p'.s.matchIndex);
    hide MajorityIndex;
    var s1 := p.s.(matchIndex := p'.s.matchIndex, nextIndex := p'.s.nextIndex);
    assert MatchBacked(s1, p'.confirmed);
    forall q | q in Reaching(p'.s.matchIndex, m) ensures q in Confirmers(p', m) {
      assert (q, p'.s.matchIndex[q]) in p'.confirmed;
    }
    SubsetIsSmaller(Reaching(p'.s.matchIndex, m), Confirmers(p', m));
  }

  lemma {:induction false} PeersStay(p: Process, events: seq<Event>)
    requires AllPossible(p, events)
    ensures After(p, events).s.peers == p.s.peers
    decreases |events|
  {
    hide Possible, Step;
    if events != [] {
      PeersStayStep(p, events[0]);
      PeersStay(Step(p, events[0]), events[1..]);
    }
  }

  lemma PeersStayStep(p: Process, e: Event)
    requires Possible(p, e)
    ensures Step(p, e).s.peers == p.s.peers
  {
    hide MajorityIndex, BackUp;
  }

  // ---------- terms ----------

  /** The term that a message carries. */
  function TermOf(e: Event): Option<nat> {
    match e
    case Vote(args) => Some(args.term)
    case VoteBack(_, reply) => Some(reply.term)
    case Append(args) => Some(args.term)
    case AppendBack(_, _, reply) => Some(reply.term)
    case Install(args) => Some(args.term)
    case SnapshotBack(_, _, replyTerm) => Some(replyTerm)
    case _ => None
  }

  /**
   * A message of a later term makes a follower of that term, whatever it is and whoever receives it, and that is
   * saved; no other message changes the term, and a request of an older term changes nothing.
   */
  lemma LaterTermRules(p: Process, e: Event)
    requires Possible(p, e) && TermOf(e).Some?
    ensures var t, s, s' := TermOf(e).value, p.s, Handle(p, e);
            && s'.currentTerm == (if t > s.currentTerm then t else s.currentTerm)
            && (t > s.currentTerm ==> s'.role == Follower && s'.persister.state == Some(Disk(t, s'.votedFor, s'.log)))
            && (t > s.currentTerm && !e.Vote? ==> s'.votedFor == NO_VOTE)
            && (t < s.currentTerm && (e.Vote? || e.Append? || e.Install?) ==> s' == s)
  {
    if e.Append? || e.AppendBack? {
      hide ScanFor, MajorityIndex, BackUp, HandleVote, InstallSnapshot, HandleVoteReply;
    } else {
      hide HandleAppend, HandleAppendReply, IsMoreUpToDate, Compact;
    }
  }
}
