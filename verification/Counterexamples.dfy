/**
 * What the code does when a hypothesis of the safety theorems fails: runs of three servers, step by step.
 */
module Counterexamples {
  import opened FiniteSets
  import opened KvTypes
  import opened RaftLog
  import opened RaftServer
  import opened Majority
  import opened Cluster

  // ---------- building runs ----------

  /** Every request that is accepted reaches far enough, but for the one at step `bad`. */
  ghost predicate ReachBut(states: seq<Cluster>, steps: seq<Step>, bad: int) {
    |states| == |steps| + 1 && forall k :: 0 <= k < |steps| && k != bad ==> Reaches(states[k], steps[k])
  }

  /** A run with one more step. */
  lemma Extend(states: seq<Cluster>, steps: seq<Step>, step: Step) returns (states': seq<Cluster>, steps': seq<Step>)
    requires Run(states, steps) && Enabled(states[|steps|], step) && Defined(states[|steps|], step)
    ensures steps' == steps + [step] && states' == states + [Apply(states[|steps|], step)]
    ensures Run(states', steps')
    ensures OwnTermVotes(states, steps) && OwnTermVote(states[|steps|], step) ==> OwnTermVotes(states', steps')
    ensures forall bad :: ReachBut(states, steps, bad) && (Reaches(states[|steps|], step) || bad == |steps|) ==>
              ReachBut(states', steps', bad)
  {
    hide Apply, Enabled, Defined, OwnTermVote, Reaches;
    states', steps' := states + [Apply(states[|steps|], step)], steps + [step];
    forall k | 0 <= k < |steps'| ensures Next(states'[k], steps'[k], states'[k + 1]) {
      if k < |steps| {
        assert Next(states[k], steps[k], states[k + 1]);
      }
    }
  }

  lemma RunStart(n: nat) returns (states: seq<Cluster>, steps: seq<Step>)
    ensures Run(states, steps) && steps == [] && states == [Initial(n)] && OwnTermVotes(states, steps)
    ensures forall bad :: ReachBut(states, steps, bad)
  {
    states, steps := [Initial(n)], [];
  }

  /** What matters of a server here. */
  predicate Is(s: Server, me: nat, role: Role, term: nat, votedFor: int, records: seq<LogRecord>) {
    && s.me == me && s.peers == 3 && |s.nextIndex| == 3 && |s.matchIndex| == 3
    && s.role == role && s.currentTerm == term && s.votedFor == votedFor && s.log == Log(records, 0)
  }

  predicate Three(st: Cluster) {
    |st.servers| == 3 && |st.hist.source| == 3
  }

  lemma StepTimeout(st: Cluster, i: nat, term: nat, votedFor: int, role: Role, records: seq<LogRecord>)
    requires Three(st) && i < 3 && Is(st.servers[i], i, role, term, votedFor, records) && role != Leader
    ensures Enabled(st, Timeout(i)) && Defined(st, Timeout(i))
    ensures var st' := Apply(st, Timeout(i));
            && Three(st') && st'.servers == st.servers[i := st'.servers[i]]
            && Is(st'.servers[i], i, Candidate, term + 1, i, records)
            && term + 1 in st'.servers[i].pending && st'.servers[i].votes == st.servers[i].votes
            && st'.servers[i].commitIndex == st.servers[i].commitIndex
            && st'.(servers := st.servers, hist := st.hist) == st && st'.hist.counted == st.hist.counted
            && st'.hist.acked == st.hist.acked
  {
  }

  lemma StepElect(st: Cluster, i: nat, term: nat, records: seq<LogRecord>, p: nat)
    requires Three(st) && i < 3 && p < 3 && p != i && |records| > 0
    requires Is(st.servers[i], i, Candidate, term, i, records) && term in st.servers[i].pending
    ensures Enabled(st, Elect(i, term)) && Defined(st, Elect(i, term))
    ensures var st' := Apply(st, Elect(i, term));
            && Three(st') && st'.servers == st.servers[i := st'.servers[i]]
            && Is(st'.servers[i], i, Candidate, term, i, records) && st'.servers[i].votes == st.servers[i].votes[term := 1]
            && st'.servers[i].commitIndex == st.servers[i].commitIndex
            && VoteReqMsg(p, VoteArgs(term, i, |records| - 1, records[|records| - 1].term)) in st'.voteReqs
            && (i, term) in st'.hist.counted && st'.voteReps == st.voteReps
            && st'.appendReqs == st.appendReqs && st'.appendReps == st.appendReps && st'.clock == st.clock
            && st'.hist.acked == st.hist.acked
  {
    assert p in Upto(3);
    assert VoteRequest(st.servers[i]) == VoteArgs(term, i, |records| - 1, records[|records| - 1].term);
  }

  /** Server p follows an earlier term, and its log is no more up to date than the candidate's. */
  lemma StepVote(st: Cluster, p: nat, before: nat, votedFor: int, records: seq<LogRecord>, args: VoteArgs)
    requires Three(st) && p < 3 && |records| > 0 && Is(st.servers[p], p, Follower, before, votedFor, records)
    requires before < args.term && VoteReqMsg(p, args) in st.voteReqs
    requires !IsMoreUpToDate(st.servers[p], args.lastLogTerm, args.lastLogIndex)
    ensures Enabled(st, Vote(VoteReqMsg(p, args))) && Defined(st, Vote(VoteReqMsg(p, args)))
    ensures var st' := Apply(st, Vote(VoteReqMsg(p, args)));
            && Three(st') && st'.servers == st.servers[p := st'.servers[p]]
            && Is(st'.servers[p], p, Follower, args.term, args.candidateId, records)
            && st'.servers[p].commitIndex == st.servers[p].commitIndex
            && VoteRepMsg(p, args.candidateId, args.term, VoteReply(before, true)) in st'.voteReps
            && st'.hist.counted == st.hist.counted && st'.hist.acked == st.hist.acked
            && st'.appendReqs == st.appendReqs && st'.appendReps == st.appendReps && st'.clock == st.clock
  {
  }

  /** One more vote for an election that counted one is a majority of three, whatever term it was for. */
  lemma StepWin(st: Cluster, i: nat, term: nat, records: seq<LogRecord>, m: VoteRepMsg)
    requires Three(st) && i < 3 && m.to == i && m in st.voteReps && m.reply.voteGranted && m.reply.term <= term
    requires Is(st.servers[i], i, Candidate, term, i, records) && (i, m.election) in st.hist.counted
    requires m.election in st.servers[i].votes && st.servers[i].votes[m.election] == 1
    ensures Enabled(st, VoteBack(m)) && Defined(st, VoteBack(m))
    ensures var st' := Apply(st, VoteBack(m));
            && Three(st') && st'.servers == st.servers[i := st'.servers[i]]
            && Is(st'.servers[i], i, Leader, term, i, records)
            && st'.servers[i].nextIndex == [|records|, |records|, |records|] && st'.servers[i].matchIndex == [0, 0, 0]
            && st'.servers[i].commitIndex == st.servers[i].commitIndex
            && st'.appendReqs == st.appendReqs && st'.appendReps == st.appendReps && st'.clock == st.clock
            && st'.hist.acked == st.hist.acked[(i, term) := |records|]
            && (OwnTermVote(st, VoteBack(m)) <==> m.election == term)
  {
  }

  // ---------- without the term in the vote-reply guard ----------

  lemma {:induction false} ClientStep(st: Cluster, i: nat, term: nat, records: seq<LogRecord>, op: Op)
    requires Three(st) && i < 3 && Is(st.servers[i], i, Leader, term, i, records)
    ensures Enabled(st, Client(i, op)) && Defined(st, Client(i, op))
    ensures var st' := Apply(st, Client(i, op));
            && Three(st') && st'.servers == st.servers[i := st'.servers[i]]
            && Is(st'.servers[i], i, Leader, term, i, records + [LogRecord(term, true, Some(op))])
            && st'.servers[i].nextIndex == st.servers[i].nextIndex && st'.servers[i].matchIndex == st.servers[i].matchIndex
            && st'.servers[i].commitIndex == st.servers[i].commitIndex
            && st'.appendReqs == st.appendReqs && st'.appendReps == st.appendReps && st'.clock == st.clock
            && st'.hist.acked == st.hist.acked[(i, term) := |records| + 1]
  {
  }

  /** Server 0 stood in term 2, was voted for by server 1, and stands again in term 3 before the reply. */
  lemma StandTwice() returns (states: seq<Cluster>, steps: seq<Step>, m: VoteRepMsg)
    ensures Run(states, steps) && |states| == |steps| + 1
    ensures var st := states[|steps|];
            && Three(st) && m in st.voteReps && m == VoteRepMsg(1, 0, 2, VoteReply(1, true))
            && Is(st.servers[0], 0, Candidate, 3, 0, [DUMMY]) && st.servers[0].votes == map[2 := 1]
            && Is(st.servers[1], 1, Follower, 2, 0, [DUMMY]) && Is(st.servers[2], 2, Follower, 1, NO_VOTE, [DUMMY])
            && (0, 2) in st.hist.counted
  {
    hide Apply, Enabled, Defined, Run;
    states, steps := RunStart(3);
    StepTimeout(states[0], 0, 1, NO_VOTE, Follower, [DUMMY]);
    states, steps := Extend(states, steps, Timeout(0));
    StepElect(states[1], 0, 2, [DUMMY], 1);
    states, steps := Extend(states, steps, Elect(0, 2));
    var args := VoteArgs(2, 0, 0, 0);
    StepVote(states[2], 1, 1, NO_VOTE, [DUMMY], args);
    states, steps := Extend(states, steps, Vote(VoteReqMsg(1, args)));
    StepTimeout(states[3], 0, 2, 0, Candidate, [DUMMY]);
    states, steps := Extend(states, steps, Timeout(0));
    m := VoteRepMsg(1, 0, 2, VoteReply(1, true));
  }

  lemma LeadTwice() returns (states: seq<Cluster>, steps: seq<Step>)
    ensures Run(states, steps) && |states| == |steps| + 1
    ensures var st := states[|steps|];
            Three(st) && Is(st.servers[0], 0, Leader, 3, 0, [DUMMY]) && Is(st.servers[1], 1, Leader, 3, 1, [DUMMY])
  {
    hide ReachBut, OwnTermVotes;
    hide Apply, Enabled, Defined, Run;
    var m;
    states, steps, m := StandTwice();
    var n := |steps|;
    StepWin(states[n], 0, 3, [DUMMY], m);
    states, steps := Extend(states, steps, VoteBack(m));
    StepTimeout(states[n + 1], 1, 2, 0, Follower, [DUMMY]);
    states, steps := Extend(states, steps, Timeout(1));
    StepElect(states[n + 2], 1, 3, [DUMMY], 2);
    states, steps := Extend(states, steps, Elect(1, 3));
    var args := VoteArgs(3, 1, 0, 0);
    StepVote(states[n + 3], 2, 1, NO_VOTE, [DUMMY], args);
    states, steps := Extend(states, steps, Vote(VoteReqMsg(2, args)));
    var m' := VoteRepMsg(2, 1, 3, VoteReply(1, true));
    StepWin(states[n + 4], 1, 3, [DUMMY], m');
    states, steps := Extend(states, steps, VoteBack(m'));
  }

  /**
   * The vote for term 2 makes server 0 the leader of term 3, in which only it voted for itself; servers 1
   * and 2 elect server 1 for the same term. Their logs then break Log Matching.
   */
  lemma TwoLeadersOfOneTerm(op: Op, op': Op) returns (states: seq<Cluster>, steps: seq<Step>)
    ensures Run(states, steps)
    ensures var st := states[|steps|];
            && Three(st) && st.servers[0].role == Leader && st.servers[1].role == Leader
            && st.servers[0].currentTerm == st.servers[1].currentTerm == 3
            && st.servers[0].log.records == [DUMMY, LogRecord(3, true, Some(op))]
            && st.servers[1].log.records == [DUMMY, LogRecord(3, true, Some(op'))]
  {
    hide Apply, Enabled, Defined, Run, ReachBut, OwnTermVotes;
    states, steps := LeadTwice();
    var n := |steps|;
    ClientStep(states[n], 0, 3, [DUMMY], op);
    states, steps := Extend(states, steps, Client(0, op));
    ClientStep(states[n + 1], 1, 3, [DUMMY], op');
    states, steps := Extend(states, steps, Client(1, op'));
  }

  // ---------- when a request does not reach far enough ----------

  /** What the leader i, with `records` and nextIndex 1 for p, sends to p. */
  function FirstProbe(i: nat, term: nat, records: seq<LogRecord>): AppendArgs
    requires |records| > 0
  {
    AppendArgs(term, i, 0, records[0].term, records[1..], 0)
  }

  lemma StepReplicate(st: Cluster, i: nat, term: nat, records: seq<LogRecord>, p: nat)
    requires Three(st) && i < 3 && p < 3 && p != i && 0 < |records| && Is(st.servers[i], i, Leader, term, i, records)
    requires st.servers[i].commitIndex == 0 && st.servers[i].matchIndex == [0, 0, 0]
    requires forall q :: 0 <= q < 3 && q != i ==> st.servers[i].nextIndex[q] == 1
    ensures Enabled(st, Replicate(i, term)) && Defined(st, Replicate(i, term))
    ensures var st' := Apply(st, Replicate(i, term));
            && Three(st') && st'.servers == st.servers[i := st'.servers[i]]
            && Is(st'.servers[i], i, Leader, term, i, records) && st'.servers[i].commitIndex == 0
            && st'.servers[i].matchIndex == [0, 0, 0][i := |records| - 1]
            && (forall q :: 0 <= q < 3 && q != i ==> st'.servers[i].nextIndex[q] == 1)
            && AppendReqMsg(p, FirstProbe(i, term, records), st.clock) in st'.appendReqs
            && st.appendReqs <= st'.appendReqs && st'.appendReps == st.appendReps
            && st'.hist == st.hist && st'.clock == st.clock + 1 && st'.voteReps == st.voteReps && st'.voteReqs == st.voteReqs
  {
    assert p in Upto(3);
    assert ReplicationMessage(st.servers[i], p).append == FirstProbe(i, term, records);
  }

  /** The larger of what is recorded for a key and n. */
  function More(acked: map<(nat, nat), nat>, key: (nat, nat), n: nat): nat {
    if key in acked && acked[key] > n then acked[key] else n
  }

  /** A follower of this term that holds the dummy entry accepts a request that starts behind it. */
  lemma StepAppend(st: Cluster, p: nat, term: nat, votedFor: int, records: seq<LogRecord>, m: AppendReqMsg)
    requires Three(st) && p < 3 && m.to == p && m in st.appendReqs && |records| > 0 && records[0] == DUMMY
    requires Is(st.servers[p], p, Follower, term, votedFor, records)
    requires m.args.term == term && m.args.prevLogIndex == 0 && m.args.prevLogTerm == 0 && m.args.leaderCommit == 0
    requires st.servers[p].commitIndex == 0
    ensures Enabled(st, Append(m)) && Defined(st, Append(m))
    ensures var st' := Apply(st, Append(m));
            && Three(st') && st'.servers == st.servers[p := st'.servers[p]]
            && Is(st'.servers[p], p, Follower, term, votedFor, [DUMMY] + m.args.entries)
            && st'.servers[p].commitIndex == 0
            && AppendRepMsg(p, m.args, AppendReply(term, true, 0, 0)) in st'.appendReps
            && st'.appendReqs == st.appendReqs && st'.clock == st.clock && st'.voteReps == st.voteReps
            && st'.hist.acked == st.hist.acked[(p, term) := More(st.hist.acked, (p, term), 1 + |m.args.entries|)]
            && st'.hist.counted == st.hist.counted
            && (Reaches(st, Append(m)) <==> (p, term) !in st.hist.acked || st.hist.acked[(p, term)] <= 1 + |m.args.entries|)
  {
    assert records[..1] == [DUMMY];
  }

  lemma MajorityOfThree(m: seq<int>, i: nat, p: nat)
    requires |m| == 3 && i < 3 && p < 3 && p != i && m == [0, 0, 0][i := 1][p := 1]
    ensures MajorityIndex(m) == 1
  {
    MajorityIndexIsLargest(m);
    MajorityIndexIsMember(m);
    var x := MajorityIndex(m);
    hide MajorityIndex;
    if x == 0 {
      assert {i, p} <= Reaching(m, 1);
      SubsetIsSmaller({i, p}, Reaching(m, 1));
      assert false;
    }
  }

  /** The leader i has one entry of its own term; the peer p has just accepted it. */
  lemma StepCommit(st: Cluster, i: nat, term: nat, records: seq<LogRecord>, m: AppendRepMsg)
    requires Three(st) && i < 3 && m.from < 3 && m.from != i && m in st.appendReps && m.args.leaderId == i
    requires Is(st.servers[i], i, Leader, term, i, records) && |records| == 2 && records[1].term == term
    requires m.reply == AppendReply(term, true, 0, 0) && m.args == FirstProbe(i, term, records)
    requires st.servers[i].commitIndex == 0 && st.servers[i].matchIndex == [0, 0, 0][i := 1]
    ensures Enabled(st, AppendBack(m)) && Defined(st, AppendBack(m))
    ensures var st' := Apply(st, AppendBack(m));
            && Three(st') && st'.servers == st.servers[i := st'.servers[i]]
            && Is(st'.servers[i], i, Leader, term, i, records) && st'.servers[i].commitIndex == 1
            && st'.(servers := st.servers) == st
  {
    MajorityOfThree(st.servers[i].matchIndex[m.from := 1], i, m.from);
    hide MajorityIndex;
  }

  /** Server 0 leads term 2, elected by server 1. */
  lemma ElectFirst() returns (states: seq<Cluster>, steps: seq<Step>)
    ensures Run(states, steps) && OwnTermVotes(states, steps) && |states| == |steps| + 1 && ReachBut(states, steps, -1)
    ensures var st := states[|steps|];
            && Three(st) && st.clock == 0 && st.hist.acked == map[(0, 2) := 1]
            && Is(st.servers[0], 0, Leader, 2, 0, [DUMMY]) && Is(st.servers[1], 1, Follower, 2, 0, [DUMMY])
            && Is(st.servers[2], 2, Follower, 1, NO_VOTE, [DUMMY])
            && st.servers[0].nextIndex == [1, 1, 1] && st.servers[0].matchIndex == [0, 0, 0]
            && st.servers[0].commitIndex == st.servers[1].commitIndex == st.servers[2].commitIndex == 0
  {
    hide Apply, Enabled, Defined, Run, OwnTermVotes;
    hide ReachBut;
    states, steps := RunStart(3);
    StepTimeout(states[0], 0, 1, NO_VOTE, Follower, [DUMMY]);
    states, steps := Extend(states, steps, Timeout(0));
    StepElect(states[1], 0, 2, [DUMMY], 1);
    states, steps := Extend(states, steps, Elect(0, 2));
    var args := VoteArgs(2, 0, 0, 0);
    StepVote(states[2], 1, 1, NO_VOTE, [DUMMY], args);
    states, steps := Extend(states, steps, Vote(VoteReqMsg(1, args)));
    var m := VoteRepMsg(1, 0, 2, VoteReply(1, true));
    StepWin(states[3], 0, 2, [DUMMY], m);
    states, steps := Extend(states, steps, VoteBack(m));
  }

  /** Server 0 sends an empty request, takes a command, and sends a request with it; both are in flight. */
  lemma SendTwice(op: Op) returns (states: seq<Cluster>, steps: seq<Step>)
    ensures Run(states, steps) && OwnTermVotes(states, steps) && |states| == |steps| + 1 && ReachBut(states, steps, -1)
    ensures var st := states[|steps|];
            var log := [DUMMY, LogRecord(2, true, Some(op))];
            && Three(st) && AppendReqMsg(1, FirstProbe(0, 2, [DUMMY]), 0) in st.appendReqs
            && AppendReqMsg(1, FirstProbe(0, 2, log), 1) in st.appendReqs
            && Is(st.servers[0], 0, Leader, 2, 0, log) && st.servers[0].commitIndex == 0
            && st.servers[0].matchIndex == [0, 0, 0][0 := 1]
            && Is(st.servers[1], 1, Follower, 2, 0, [DUMMY]) && st.servers[1].commitIndex == 0
            && Is(st.servers[2], 2, Follower, 1, NO_VOTE, [DUMMY]) && st.servers[2].commitIndex == 0
            && st.hist.acked == map[(0, 2) := 2]
  {
    hide Apply, Enabled, Defined, Run, OwnTermVotes, ReachBut;
    states, steps := ElectFirst();
    var n := |steps|;
    StepReplicate(states[n], 0, 2, [DUMMY], 1);
    states, steps := Extend(states, steps, Replicate(0, 2));
    ClientStep(states[n + 1], 0, 2, [DUMMY], op);
    states, steps := Extend(states, steps, Client(0, op));
    var log := [DUMMY, LogRecord(2, true, Some(op))];
    assert [DUMMY] + [LogRecord(2, true, Some(op))] == log;
    StepReplicate(states[n + 2], 0, 2, log, 1);
    states, steps := Extend(states, steps, Replicate(0, 2));
  }

  /** Server 0 commits its entry, held by server 1; its first, empty request to server 1 is still in flight. */
  lemma CommitFirst(op: Op) returns (states: seq<Cluster>, steps: seq<Step>, late: AppendReqMsg)
    ensures Run(states, steps) && OwnTermVotes(states, steps) && |states| == |steps| + 1 && ReachBut(states, steps, -1)
    ensures var st := states[|steps|];
            var log := [DUMMY, LogRecord(2, true, Some(op))];
            && Three(st) && late in st.appendReqs && late == AppendReqMsg(1, FirstProbe(0, 2, [DUMMY]), 0)
            && Is(st.servers[0], 0, Leader, 2, 0, log) && st.servers[0].commitIndex == 1
            && Is(st.servers[1], 1, Follower, 2, 0, log) && st.servers[1].commitIndex == 0
            && Is(st.servers[2], 2, Follower, 1, NO_VOTE, [DUMMY]) && st.servers[2].commitIndex == 0
            && st.hist.acked == map[(0, 2) := 2, (1, 2) := 2]
  {
    hide Apply, Enabled, Defined, Run, OwnTermVotes, ReachBut;
    states, steps := SendTwice(op);
    late := AppendReqMsg(1, FirstProbe(0, 2, [DUMMY]), 0);
    var n := |steps|;
    var log := [DUMMY, LogRecord(2, true, Some(op))];
    var m := AppendReqMsg(1, FirstProbe(0, 2, log), 1);
    StepAppend(states[n], 1, 2, 0, [DUMMY], m);
    states, steps := Extend(states, steps, Append(m));
    assert [DUMMY] + m.args.entries == log;
    var r := AppendRepMsg(1, m.args, AppendReply(2, true, 0, 0));
    StepCommit(states[n + 1], 0, 2, log, r);
    states, steps := Extend(states, steps, AppendBack(r));
  }

  /** The late request drops the committed entry from server 1, which then elects server 2. */
  lemma ElectSecond(op: Op) returns (states: seq<Cluster>, steps: seq<Step>, bad: nat)
    ensures Run(states, steps) && OwnTermVotes(states, steps) && |states| == |steps| + 1
    ensures bad < |steps| && !Reaches(states[bad], steps[bad]) && ReachBut(states, steps, bad)
    ensures var st := states[|steps|];
            && Three(st)
            && Is(st.servers[0], 0, Leader, 2, 0, [DUMMY, LogRecord(2, true, Some(op))]) && st.servers[0].commitIndex == 1
            && Is(st.servers[1], 1, Follower, 3, 2, [DUMMY]) && st.servers[1].commitIndex == 0
            && Is(st.servers[2], 2, Leader, 3, 2, [DUMMY]) && st.servers[2].commitIndex == 0
            && st.servers[2].nextIndex == [1, 1, 1] && st.servers[2].matchIndex == [0, 0, 0]
            && (1, 3) !in st.hist.acked
  {
    hide Apply, Enabled, Defined, Run, OwnTermVotes, ReachBut;
    var late;
    states, steps, late := CommitFirst(op);
    var n := |steps|;
    bad := n;
    ReachAll(states, steps, bad);
    StepAppend(states[n], 1, 2, 0, [DUMMY, LogRecord(2, true, Some(op))], late);
    states, steps := Extend(states, steps, Append(late));
    StepTimeout(states[n + 1], 2, 1, NO_VOTE, Follower, [DUMMY]);
    states, steps := Extend(states, steps, Timeout(2));
    StepTimeout(states[n + 2], 2, 2, 2, Candidate, [DUMMY]);
    states, steps := Extend(states, steps, Timeout(2));
    StepElect(states[n + 3], 2, 3, [DUMMY], 1);
    states, steps := Extend(states, steps, Elect(2, 3));
    var args := VoteArgs(3, 2, 0, 0);
    StepVote(states[n + 4], 1, 2, 0, [DUMMY], args);
    states, steps := Extend(states, steps, Vote(VoteReqMsg(1, args)));
    var m := VoteRepMsg(1, 2, 3, VoteReply(2, true));
    StepWin(states[n + 5], 2, 3, [DUMMY], m);
    states, steps := Extend(states, steps, VoteBack(m));
  }

  lemma ReachAll(states: seq<Cluster>, steps: seq<Step>, bad: int)
    requires ReachBut(states, steps, -1)
    ensures ReachBut(states, steps, bad)
  {
  }

  /**
   * State Machine Safety fails when one accepted request does not reach far enough: servers 0 and 2 have both
   * committed index 1, and disagree on it. The one step at which the condition fails is a request of the same
   * leader that arrives late.
   */
  lemma CommittedTwice(op: Op, op': Op) returns (states: seq<Cluster>, steps: seq<Step>, bad: nat)
    ensures Run(states, steps) && OwnTermVotes(states, steps) && |states| == |steps| + 1
    ensures bad < |steps| && steps[bad].Append? && !Reaches(states[bad], steps[bad]) && ReachBut(states, steps, bad)
    ensures var st := states[|steps|];
            && Three(st) && st.servers[0].commitIndex == 1 && st.servers[2].commitIndex == 1
            && st.servers[0].log.records == [DUMMY, LogRecord(2, true, Some(op))]
            && st.servers[2].log.records == [DUMMY, LogRecord(3, true, Some(op'))]
  {
    hide Apply, Enabled, Defined, Run, OwnTermVotes, ReachBut;
    states, steps, bad := ElectSecond(op);
    var n := |steps|;
    ClientStep(states[n], 2, 3, [DUMMY], op');
    states, steps := Extend(states, steps, Client(2, op'));
    var log := [DUMMY, LogRecord(3, true, Some(op'))];
    assert [DUMMY] + [LogRecord(3, true, Some(op'))] == log;
    StepReplicate(states[n + 1], 2, 3, log, 1);
    states, steps := Extend(states, steps, Replicate(2, 3));
    var m := AppendReqMsg(1, FirstProbe(2, 3, log), states[n + 1].clock);
    StepAppend(states[n + 2], 1, 3, 2, [DUMMY], m);
    states, steps := Extend(states, steps, Append(m));
    var r := AppendRepMsg(1, m.args, AppendReply(3, true, 0, 0));
    StepCommit(states[n + 3], 2, 3, log, r);
    states, steps := Extend(states, steps, AppendBack(r));
  }
}
