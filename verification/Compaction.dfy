/**
 * Log compaction on one server (src/raft/raft_snapshot.go, section 7 of the extended Raft paper): the
 * records kept above Base stand for the whole log. A server that compacts and one that never does give
 * the same answers to everyone, over every run of votes, appends, commands, snapshots and crashes.
 */
module Compaction {
  import opened KvTypes
  import opened RaftLog
  import opened RaftServer

  // ---------- the abstraction ----------

  /** `log` is `full` with everything up to its Base dropped, but for the term at Base. */
  predicate Refines(log: Log, full: seq<LogRecord>) {
    && |log.records| > 0 && log.Size() == |full|
    && log.records[0].term == full[log.base].term
    && log.records[1..] == full[log.base + 1..]
  }

  /** Everything a reader of the log can ask at or above Base has the same answer. */
  lemma SameReads(log: Log, full: seq<LogRecord>)
    requires Refines(log, full)
    ensures log.Size() == Log(full, 0).Size() && log.LastLogTerm() == Log(full, 0).LastLogTerm()
    ensures log.Get(log.base).term == full[log.base].term
    ensures forall i :: log.base < i < log.Size() ==> log.Get(i) == Log(full, 0).Get(i)
  {
    forall i | log.base < i < log.Size() ensures log.Get(i) == full[i] {
      assert log.records[1..][i - log.base - 1] == full[log.base + 1..][i - log.base - 1];
    }
  }

  lemma AppendRefines(log: Log, full: seq<LogRecord>, lr: LogRecord)
    requires Refines(log, full)
    ensures Refines(log.Append(lr), full + [lr])
  {
    assert (log.records + [lr])[1..] == log.records[1..] + [lr];
    assert (full + [lr])[log.base + 1..] == full[log.base + 1..] + [lr];
  }

  /** The suffix replacement of AppendEntries, at or above Base. */
  lemma ReplaceRefines(log: Log, full: seq<LogRecord>, prev: int, entries: seq<LogRecord>)
    requires Refines(log, full) && log.base <= prev < log.Size()
    ensures Refines(log.(records := log.records[..prev + 1 - log.base] + entries), full[..prev + 1] + entries)
  {
    var kept := log.records[..prev + 1 - log.base];
    assert (kept + entries)[1..] == log.records[1..][..prev - log.base] + entries;
    assert (full[..prev + 1] + entries)[log.base + 1..] == full[log.base + 1..][..prev - log.base] + entries;
  }

  lemma CompactRefines(log: Log, full: seq<LogRecord>, index: int)
    requires Refines(log, full) && log.base <= index < log.Size()
    ensures Refines(Compact(log, index, log.Get(index).term), full)
  {
    TermsKept(log, full, index - log.base);
    var c := Compact(log, index, log.Get(index).term);
    assert c.records[1..] == log.records[1..][index - log.base..];
    assert full[log.base + 1..][index - log.base..] == full[index + 1..];
  }

  lemma TermsKept(log: Log, full: seq<LogRecord>, i: nat)
    requires Refines(log, full) && i < |log.records|
    ensures log.base + i < |full| && log.records[i].term == full[log.base + i].term
  {
    if i > 0 {
      assert log.records[1..][i - 1] == full[log.base + 1..][i - 1];
    }
  }

  // ---------- the two servers ----------

  predicate Saved(s: Server) {
    s.persister.state.Some? ==> s.persister.state.value == Disk(s.currentTerm, s.votedFor, s.log)
  }

  predicate Unsaved(s: Server) {
    s.persister.state.None? ==> Disk(s.currentTerm, s.votedFor, s.log) == Disk(1, NO_VOTE, Log([DUMMY], 0))
  }

  /** u is s without compaction: the same but for the log, and for what only tells where the log is. */
  predicate Shadows(s: Server, u: Server) {
    && s.me == u.me && s.peers == u.peers && s.role == u.role
    && s.currentTerm == u.currentTerm && s.votedFor == u.votedFor
    && s.pending == u.pending && s.votes == u.votes
    && u.log.base == 0 && Refines(s.log, u.log.records)
    && Saved(s) && Saved(u) && Unsaved(s) && Unsaved(u)
  }

  datatype Event =
    | Timeout
    | Elect(term: nat)
    | Vote(voteArgs: VoteArgs)
    | VoteBack(election: nat, voteReply: VoteReply)
    | Client(op: Op)
    | Append(appendArgs: AppendArgs)
    | Snapshot(index: int, data: KvSnapshot)
    | Crash

  /** What others see of an event. The index in a rejection is left to FirstLogForShifts. */
  datatype Answer =
    | Silent
    | Asks(args: Option<VoteArgs>)
    | Votes(reply: VoteReply)
    | Appends(term: nat, success: bool, conflictTerm: nat)
    | Panics

  /** What a process needs of its log to work at all. */
  predicate Sound(s: Server) {
    |s.log.records| > 0 && Saved(s) && Unsaved(s)
  }

  /** Raft's Snapshot reads the entry at its index. */
  predicate InLog(s: Server, index: int) {
    s.log.base <= index <= s.commitIndex ==> index < s.log.Size()
  }

  function Restart(s: Server): Server {
    Boot(s.me, s.peers, s.persister)
  }

  /** A process that panics is started again on what it had saved. */
  function Handle(s: Server, e: Event): (Server, Answer)
    requires Sound(s)
  {
    match e
    case Timeout => (ElectionTimeout(s), Silent)
    case Elect(term) => (StartElection(s, term), Asks(if AsksVotes(s, term) then Some(VoteRequest(s)) else None))
    case Vote(args) => var (s', reply) := HandleVote(s, args); (s', Votes(reply))
    case VoteBack(election, reply) => (if election in s.votes then HandleVoteReply(s, election, reply) else s, Silent)
    case Client(op) => (Start(s, op), Silent)
    case Append(args) =>
      if Readable(s, args) then
        var (s', reply) := HandleAppend(s, args);
        (s', Appends(reply.term, reply.success, reply.conflictTerm))
      else (Restart(BecomeFollower(s, args.term)), Panics)
    case Snapshot(index, data) => if InLog(s, index) then (TakeSnapshot(s, index, data), Silent) else (Restart(s), Panics)
    case Crash => (Restart(s), Silent)
  }

  /** The server that does not compact. */
  function HandleWhole(u: Server, e: Event): (Server, Answer)
    requires Sound(u)
  {
    if e.Snapshot? then (u, Silent) else Handle(u, e)
  }

  /** A request of a current term that reaches below Base, or a snapshot index past the log. */
  predicate Hits(s: Server, e: Event) {
    match e
    case Append(args) => args.term >= s.currentTerm && 0 <= args.prevLogIndex < s.log.base
    case Snapshot(index, _) => !InLog(s, index)
    case _ => false
  }

  // ---------- one event ----------

  lemma ShadowTimeout(s: Server, u: Server)
    requires Shadows(s, u)
    ensures Shadows(ElectionTimeout(s), ElectionTimeout(u))
  {
    hide Refines;
  }

  lemma ShadowElect(s: Server, u: Server, term: nat)
    requires Shadows(s, u)
    ensures Shadows(StartElection(s, term), StartElection(u, term)) && (AsksVotes(s, term) <==> AsksVotes(u, term))
    ensures |s.log.records| > 0 && |u.log.records| > 0 && VoteRequest(s) == VoteRequest(u)
  {
    SameReads(s.log, u.log.records);
    hide Refines;
  }

  lemma ShadowVoteBack(s: Server, u: Server, election: nat, reply: VoteReply)
    requires Shadows(s, u) && election in s.votes
    ensures election in u.votes && Shadows(HandleVoteReply(s, election, reply), HandleVoteReply(u, election, reply))
  {
    ShadowFollower(s, u, reply.term);
    hide Refines, BecomeFollower;
  }

  lemma ShadowQuiet(s: Server, u: Server, e: Event)
    requires Shadows(s, u) && (e.Timeout? || e.Elect? || e.VoteBack?)
    ensures Sound(s) && Sound(u) && Handle(s, e).1 == Handle(u, e).1 && Shadows(Handle(s, e).0, Handle(u, e).0)
  {
    ShadowsSound(s, u);
    assert s.votes == u.votes;
    hide Shadows, Sound, ElectionTimeout, StartElection, HandleVoteReply, VoteRequest, AsksVotes;
    match e
    case Timeout => ShadowTimeout(s, u);
    case Elect(term) => ShadowElect(s, u, term);
    case VoteBack(election, reply) =>
      if election in s.votes {
        ShadowVoteBack(s, u, election, reply);
      }
  }

  lemma ShadowRestart(s: Server, u: Server)
    requires Shadows(s, u)
    ensures Shadows(Restart(s), Restart(u))
  {
    hide Refines;
  }

  lemma SameVote(s: Server, u: Server, term: nat, index: int)
    requires Shadows(s, u)
    ensures |s.log.records| > 0 && |u.log.records| > 0 && IsMoreUpToDate(s, term, index) == IsMoreUpToDate(u, term, index)
  {
    SameReads(s.log, u.log.records);
  }

  lemma ShadowVote(s: Server, u: Server, args: VoteArgs)
    requires Shadows(s, u)
    ensures IsMoreUpToDate(s, args.lastLogTerm, args.lastLogIndex) == IsMoreUpToDate(u, args.lastLogTerm, args.lastLogIndex)
    ensures var (s', a) := HandleVote(s, args);
            var (u', b) := HandleVote(u, args);
            a == b && Shadows(s', u')
  {
    ShadowFollower(s, u, args.term);
    SameVote(s, u, args.lastLogTerm, args.lastLogIndex);
    SameVote(BecomeFollower(s, args.term), BecomeFollower(u, args.term), args.lastLogTerm, args.lastLogIndex);
    hide IsMoreUpToDate, Refines;
  }

  lemma ShadowClient(s: Server, u: Server, op: Op)
    requires Shadows(s, u)
    ensures Shadows(Start(s, op), Start(u, op))
  {
    AppendRefines(s.log, u.log.records, LogRecord(s.currentTerm, true, Some(op)));
  }

  lemma ShadowFollower(s: Server, u: Server, term: nat)
    requires Shadows(s, u)
    ensures Shadows(BecomeFollower(s, term), BecomeFollower(u, term))
    ensures BecomeFollower(s, term).log == s.log && BecomeFollower(u, term).log == u.log
  {
    hide Refines;
  }

  /** The follower after an accepted request. */
  function Accepted(s: Server, prev: int, entries: seq<LogRecord>, leaderCommit: int): Server
    requires s.log.base <= prev < s.log.Size()
  {
    var s' := Persist(s.(log := s.log.(records := s.log.records[..prev + 1 - s.log.base] + entries)));
    s'.(commitIndex := if leaderCommit > s.commitIndex then leaderCommit else s.commitIndex)
  }

  lemma AppendIs(s: Server, args: AppendArgs)
    requires Readable(s, args)
    ensures var s1 := BecomeFollower(s, args.term);
            if HandleAppend(s, args).1.success
            then s1.log.base <= args.prevLogIndex < s1.log.Size() && args.term >= s.currentTerm
                 && HandleAppend(s, args).0 == Accepted(s1, args.prevLogIndex, args.entries, args.leaderCommit)
            else HandleAppend(s, args).0 == if args.term < s.currentTerm then s else s1
  {
    hide ScanFor;
  }

  lemma ShadowAccept(s: Server, u: Server, prev: int, entries: seq<LogRecord>, leaderCommit: int)
    requires Shadows(s, u) && s.log.base <= prev < s.log.Size() && u.log.base <= prev < u.log.Size()
    ensures Shadows(Accepted(s, prev, entries, leaderCommit), Accepted(u, prev, entries, leaderCommit))
  {
    ReplaceRefines(s.log, u.log.records, prev, entries);
    hide Refines;
  }

  lemma SameAppendAnswer(s: Server, u: Server, args: AppendArgs)
    requires Shadows(s, u) && Readable(s, args) && Readable(u, args)
    ensures var a, b := HandleAppend(s, args).1, HandleAppend(u, args).1;
            a.term == b.term && a.success == b.success && a.conflictTerm == b.conflictTerm
  {
    SameReads(s.log, u.log.records);
    ShadowFollower(s, u, args.term);
    assert s.currentTerm == u.currentTerm;
    hide Shadows, BecomeFollower, ScanFor, Persist;
  }

  lemma ShadowAppend(s: Server, u: Server, args: AppendArgs)
    requires Shadows(s, u) && Readable(s, args) && Readable(u, args)
    ensures Shadows(HandleAppend(s, args).0, HandleAppend(u, args).0)
  {
    assert u.log.base == 0 && s.currentTerm == u.currentTerm;
    hide Shadows, BecomeFollower, HandleAppend, Accepted;
    SameAppendAnswer(s, u, args);
    ShadowFollower(s, u, args.term);
    AppendIs(s, args);
    AppendIs(u, args);
    if HandleAppend(s, args).1.success {
      ShadowAccept(BecomeFollower(s, args.term), BecomeFollower(u, args.term), args.prevLogIndex, args.entries, args.leaderCommit);
    }
  }

  lemma ShadowSnapshot(s: Server, u: Server, index: int, data: KvSnapshot)
    requires Shadows(s, u) && InLog(s, index)
    ensures Shadows(TakeSnapshot(s, index, data), u)
  {
    if s.log.base <= index <= s.commitIndex {
      CompactRefines(s.log, u.log.records, index);
    }
  }

  lemma ShadowsSound(s: Server, u: Server)
    requires Shadows(s, u)
    ensures Sound(s) && Sound(u) && s.currentTerm == u.currentTerm && u.log.base == 0
  {
  }

  lemma ShadowAnyAppend(s: Server, u: Server, args: AppendArgs)
    requires Shadows(s, u) && Sound(s) && Sound(u) && !Hits(s, Append(args))
    ensures Handle(s, Append(args)).1 == Handle(u, Append(args)).1
    ensures Shadows(Handle(s, Append(args)).0, Handle(u, Append(args)).0)
  {
    ShadowsSound(s, u);
    hide Shadows, HandleAppend, BecomeFollower, Restart, Sound;
    if Readable(s, args) {
      SameAppendAnswer(s, u, args);
      ShadowAppend(s, u, args);
    } else {
      ShadowFollower(s, u, args.term);
      ShadowRestart(BecomeFollower(s, args.term), BecomeFollower(u, args.term));
    }
  }

  /** One event that does not hit the end of the records leaves the servers alike, with the same answer. */
  lemma Shadow(s: Server, u: Server, e: Event)
    requires Shadows(s, u) && !Hits(s, e)
    ensures Sound(s) && Sound(u) && Handle(s, e).1 == HandleWhole(u, e).1 && Shadows(Handle(s, e).0, HandleWhole(u, e).0)
  {
    ShadowsSound(s, u);
    hide Shadows, Sound;
    match e
    case Vote(args) => ShadowVote(s, u, args);
    case Client(op) => ShadowClient(s, u, op);
    case Append(args) => ShadowAnyAppend(s, u, args);
    case Snapshot(index, data) => ShadowSnapshot(s, u, index, data);
    case Crash => ShadowRestart(s, u);
    case _ => ShadowQuiet(s, u, e);
  }

  /** One that does is answered differently. */
  lemma HitShows(s: Server, u: Server, e: Event)
    requires Shadows(s, u) && Hits(s, e)
    ensures Sound(s) && Sound(u) && Handle(s, e).1 == Panics != HandleWhole(u, e).1
  {
    ShadowsSound(s, u);
    hide Shadows, HandleAppend, BecomeFollower, TakeSnapshot, Restart;
  }

  // ---------- every run ----------

  lemma HandleSound(s: Server, e: Event)
    requires Sound(s)
    ensures Sound(Handle(s, e).0)
  {
    match e
    case Append(_) => AppendSound(s, e);
    case Snapshot(_, _) => SnapshotSound(s, e);
    case Crash =>
    case _ => QuietSound(s, e);
  }

  lemma AppendSound(s: Server, e: Event)
    requires Sound(s) && e.Append?
    ensures Sound(Handle(s, e).0)
  {
    hide ScanFor;
  }

  lemma SnapshotSound(s: Server, e: Event)
    requires Sound(s) && e.Snapshot?
    ensures Sound(Handle(s, e).0)
  {
  }

  lemma QuietSound(s: Server, e: Event)
    requires Sound(s) && !e.Append? && !e.Snapshot? && !e.Crash?
    ensures Sound(Handle(s, e).0)
  {
    hide IsMoreUpToDate, HandleAppend, TakeSnapshot;
  }

  function Final(s: Server, events: seq<Event>): Server
    requires Sound(s)
    decreases |events|
  {
    if events == [] then s
    else
      HandleSound(s, events[0]);
      Final(Handle(s, events[0]).0, events[1..])
  }

  function Answers(s: Server, events: seq<Event>): seq<Answer>
    requires Sound(s)
    decreases |events|
  {
    if events == [] then []
    else
      HandleSound(s, events[0]);
      [Handle(s, events[0]).1] + Answers(Handle(s, events[0]).0, events[1..])
  }

  function FinalWhole(u: Server, events: seq<Event>): Server
    requires Sound(u)
    decreases |events|
  {
    if events == [] then u
    else
      HandleSound(u, events[0]);
      FinalWhole(HandleWhole(u, events[0]).0, events[1..])
  }

  function AnswersWhole(u: Server, events: seq<Event>): seq<Answer>
    requires Sound(u)
    decreases |events|
  {
    if events == [] then []
    else
      HandleSound(u, events[0]);
      [HandleWhole(u, events[0]).1] + AnswersWhole(HandleWhole(u, events[0]).0, events[1..])
  }

  /** No event of the run reaches past an end of the records. */
  predicate NeverHits(s: Server, events: seq<Event>)
    requires Sound(s)
    decreases |events|
  {
    if events == [] then true
    else
      HandleSound(s, events[0]);
      !Hits(s, events[0]) && NeverHits(Handle(s, events[0]).0, events[1..])
  }

  lemma {:induction false} CompactionInvisibleFrom(s: Server, u: Server, events: seq<Event>)
    requires Shadows(s, u) && Sound(s) && Sound(u)
    ensures Answers(s, events) == AnswersWhole(u, events) <==> NeverHits(s, events)
    ensures NeverHits(s, events) ==> Shadows(Final(s, events), FinalWhole(u, events))
    decreases |events|
  {
    hide Shadows, Sound, Handle, HandleWhole, Hits;
    if events != [] {
      HandleSound(s, events[0]);
      WholeSound(u, events[0]);
      if Hits(s, events[0]) {
        HitShows(s, u, events[0]);
        assert Answers(s, events)[0] != AnswersWhole(u, events)[0];
      } else {
        Shadow(s, u, events[0]);
        var s', u' := Handle(s, events[0]).0, HandleWhole(u, events[0]).0;
        CompactionInvisibleFrom(s', u', events[1..]);
        assert Answers(s, events)[1..] == Answers(s', events[1..]);
        assert AnswersWhole(u, events)[1..] == AnswersWhole(u', events[1..]);
      }
    }
  }

  lemma WholeSound(u: Server, e: Event)
    requires Sound(u)
    ensures Sound(HandleWhole(u, e).0)
  {
    HandleSound(u, e);
  }

  lemma BootSound(me: nat, peers: nat)
    ensures Sound(Boot(me, peers, Persister(None, None)))
    ensures Shadows(Boot(me, peers, Persister(None, None)), Boot(me, peers, Persister(None, None)))
  {
  }

  /**
   * Started together, a server that compacts gives every answer that one that does not gives, if and only if
   * no request of a current term reaches below its Base and no snapshot index lies past its log. Then its
   * records stand for the other's whole log.
   */
  lemma CompactionInvisible(me: nat, peers: nat, events: seq<Event>)
    ensures Sound(Boot(me, peers, Persister(None, None)))
    ensures var s := Boot(me, peers, Persister(None, None));
            && (Answers(s, events) == AnswersWhole(s, events) <==> NeverHits(s, events))
            && (NeverHits(s, events) ==> Refines(Final(s, events).log, FinalWhole(s, events).log.records))
  {
    var s := Boot(me, peers, Persister(None, None));
    BootSound(me, peers);
    CompactionInvisibleFrom(s, s, events);
    hide Sound, Answers, AnswersWhole, NeverHits, Final, FinalWhole;
  }

  // ---------- what shows: a request that arrives after the follower's snapshot ----------

  function Entry(op: Op): LogRecord {
    LogRecord(2, true, Some(op))
  }

  /** The leader of term 2 replicates one entry, and then tells that it is committed. */
  function First(op: Op): AppendArgs {
    AppendArgs(2, 1, 0, 0, [Entry(op)], 0)
  }

  function Second(): AppendArgs {
    AppendArgs(2, 1, 1, 2, [], 1)
  }

  lemma FirstTaken(op: Op)
    ensures var s := Boot(0, 3, Persister(None, None));
            && Sound(s) && Handle(s, Append(First(op))).1 == Appends(1, true, 0)
            && var s' := Handle(s, Append(First(op))).0;
               Sound(s') && s'.currentTerm == 2 && s'.log == Log([DUMMY, Entry(op)], 0) && s'.commitIndex == 0
  {
    hide Entry;
  }

  lemma SecondTaken(s: Server, op: Op)
    requires Sound(s) && s.currentTerm == 2 && s.log == Log([DUMMY, Entry(op)], 0) && s.commitIndex == 0
    ensures Handle(s, Append(Second())).1 == Appends(2, true, 0)
    ensures var s' := Handle(s, Append(Second())).0;
            Sound(s') && s'.currentTerm == 2 && s'.log == Log([DUMMY, Entry(op)], 0) && s'.commitIndex == 1
  {
    assert Entry(op).term == 2;
    hide Entry;
    HandleSound(s, Append(Second()));
    assert s.log.records[..2] + [] == s.log.records;
  }

  lemma SnapshotThenLate(s: Server, op: Op, data: KvSnapshot)
    requires Sound(s) && s.currentTerm == 2 && s.log == Log([DUMMY, Entry(op)], 0) && s.commitIndex == 1
    ensures Handle(s, Snapshot(1, data)).1 == Silent && !Hits(s, Snapshot(1, data))
    ensures var s' := Handle(s, Snapshot(1, data)).0;
            Sound(s') && Handle(s', Append(First(op))).1 == Panics && Hits(s', Append(First(op)))
    ensures Handle(s, Append(First(op))).1 == Appends(2, true, 0)
  {
    hide Entry;
    HandleSound(s, Snapshot(1, data));
  }

  lemma FourAnswers(s: Server, a: Event, b: Event, c: Event, d: Event)
    requires Sound(s)
    ensures Sound(Handle(s, a).0) && Sound(Handle(Handle(s, a).0, b).0) && Sound(Handle(Handle(Handle(s, a).0, b).0, c).0)
    ensures var s1 := Handle(s, a).0;
            var s2 := Handle(s1, b).0;
            Answers(s, [a, b, c, d]) == [Handle(s, a).1, Handle(s1, b).1, Handle(s2, c).1, Handle(Handle(s2, c).0, d).1]
  {
    hide Handle, Sound;
    HandleSound(s, a);
    HandleSound(Handle(s, a).0, b);
    HandleSound(Handle(Handle(s, a).0, b).0, c);
    assert [a, b, c, d][1..] == [b, c, d] && [b, c, d][1..] == [c, d] && [c, d][1..] == [d] && [d][1..] == [];
    assert Answers(Handle(Handle(Handle(s, a).0, b).0, c).0, [d]) == [Handle(Handle(Handle(Handle(s, a).0, b).0, c).0, d).1];
    assert Answers(Handle(Handle(s, a).0, b).0, [c, d]) ==
           [Handle(Handle(Handle(s, a).0, b).0, c).1, Handle(Handle(Handle(Handle(s, a).0, b).0, c).0, d).1];
  }

  /**
   * The run in which compaction shows: the follower takes over an entry, learns that it is committed and
   * snapshots it; then the first request comes a second time, and the process panics.
   */
  lemma LateRequestPanics(op: Op, data: KvSnapshot)
    ensures Sound(Boot(0, 3, Persister(None, None)))
    ensures var s := Boot(0, 3, Persister(None, None));
            var events := [Append(First(op)), Append(Second()), Snapshot(1, data), Append(First(op))];
            && Answers(s, events) == [Appends(1, true, 0), Appends(2, true, 0), Silent, Panics]
            && Answers(s, events) != AnswersWhole(s, events) && !NeverHits(s, events)
  {
    var s := Boot(0, 3, Persister(None, None));
    var events := [Append(First(op)), Append(Second()), Snapshot(1, data), Append(First(op))];
    hide Handle, Sound, NeverHits, Answers, AnswersWhole, Hits;
    FirstTaken(op);
    SecondTaken(Handle(s, events[0]).0, op);
    SnapshotThenLate(Handle(Handle(s, events[0]).0, events[1]).0, op, data);
    FourAnswers(s, events[0], events[1], events[2], events[3]);
    CompactionInvisible(0, 3, events);
    WholeNeverPanics(s, events);
  }

  /** A server that does not compact panics at no request that a leader can send. */
  lemma {:induction false} WholeNeverPanics(u: Server, events: seq<Event>)
    requires Sound(u) && u.log.base == 0 && Uncompacted(u)
    requires forall k :: 0 <= k < |events| && events[k].Append? ==> events[k].appendArgs.prevLogIndex >= 0
    ensures Panics !in AnswersWhole(u, events)
    decreases |events|
  {
    if events != [] {
      WholeSound(u, events[0]);
      WholeStaysWhole(u, events[0]);
      hide Handle, HandleWhole, Sound;
      WholeNeverPanics(HandleWhole(u, events[0]).0, events[1..]);
    }
  }

  /** What is on disk is not compacted either. */
  predicate Uncompacted(u: Server) {
    u.persister.state.Some? ==> u.persister.state.value.log.base == 0
  }

  lemma WholeStaysWhole(u: Server, e: Event)
    requires Sound(u) && u.log.base == 0 && Uncompacted(u) && (e.Append? ==> e.appendArgs.prevLogIndex >= 0)
    ensures HandleWhole(u, e).1 != Panics && HandleWhole(u, e).0.log.base == 0 && Uncompacted(HandleWhole(u, e).0)
  {
    hide ScanFor, IsMoreUpToDate;
  }

  // ---------- what does change: the index a rejection names ----------

  /**
   * firstLogFor returns an offset into the records. With the first entry of a term at index f of the
   * whole log, it answers f - Base when f is above Base, and 0 when the entry at Base is of that term.
   */
  lemma FirstLogForShifts(log: Log, full: seq<LogRecord>, term: nat)
    requires Refines(log, full) && TermsAscend(full) && exists i :: 0 <= i < |log.records| && log.records[i].term == term
    ensures var f := Log(full, 0).FirstLogFor(term);
            && 0 <= f < |full| && full[f].term == term
            && log.FirstLogFor(term) == if f > log.base then f - log.base else 0
  {
    TermsShifted(log, full);
    AscendKept(log.records, full, log.base);
    hide Refines, ScanFor, TermsAscend, SameTerms;
    var i :| 0 <= i < |log.records| && log.records[i].term == term;
    TermsKept(log, full, i);
    FirstFound(full, term, log.base + i);
    FirstFound(log.records, term, i);
    FirstsMatch(log.records, full, log.base, term, ScanFor(log.records, term, 0), ScanFor(full, term, 0));
  }

  /** The records have the terms that the whole log has from Base on. */
  ghost predicate SameTerms(records: seq<LogRecord>, full: seq<LogRecord>, base: nat) {
    base + |records| == |full| && forall i :: 0 <= i < |records| ==> records[i].term == full[base + i].term
  }

  lemma TermsShifted(log: Log, full: seq<LogRecord>)
    requires Refines(log, full)
    ensures SameTerms(log.records, full, log.base)
  {
    assert log.base + |log.records| == |full|;
    hide Refines;
    forall i: nat | i < |log.records| ensures log.records[i].term == full[log.base + i].term {
      TermsKept(log, full, i);
    }
  }

  lemma AscendKept(records: seq<LogRecord>, full: seq<LogRecord>, base: nat)
    requires SameTerms(records, full, base) && TermsAscend(full)
    ensures TermsAscend(records)
  {
  }

  lemma FirstFound(records: seq<LogRecord>, term: nat, i: nat)
    requires TermsAscend(records) && i < |records| && records[i].term == term
    ensures var r := ScanFor(records, term, 0);
            r < |records| && records[r].term == term && forall k :: 0 <= k < r ==> records[k].term < term
  {
    ScanForIsExact(records, term, 0);
  }

  lemma FirstsMatch(records: seq<LogRecord>, full: seq<LogRecord>, base: nat, term: nat, r: nat, f: nat)
    requires SameTerms(records, full, base) && TermsAscend(full)
    requires r < |records| && records[r].term == term && forall i :: 0 <= i < r ==> records[i].term < term
    requires f < |full| && full[f].term == term && forall i :: 0 <= i < f ==> full[i].term < term
    ensures r == if f > base then f - base else 0
  {
    if f > base {
      assert records[f - base].term == term;
    } else {
      assert records[0].term == full[base].term;
    }
  }
}
