/**
 * Whom a server votes for (src/raft/raft_election.go:131-196). The comparison of the last entries is a strict
 * order on logs, so of any servers there is one whose log none of the others holds against it, and with a term
 * that is new to them it gets all their votes.
 */
module ElectionOrder {
  import opened RaftLog
  import opened RaftServer

  /** By the last term, then by the last index. */
  predicate Behind(term: nat, index: int, otherTerm: nat, otherIndex: int) {
    term < otherTerm || (term == otherTerm && index < otherIndex)
  }

  /** The voter finds its own log more up to date than the one of the candidate's request. */
  predicate HoldsLogAgainst(voter: Server, candidate: Server)
    requires |voter.log.records| > 0 && |candidate.log.records| > 0
  {
    var args := VoteRequest(candidate);
    IsMoreUpToDate(voter, args.lastLogTerm, args.lastLogIndex)
  }

  /** Exactly when a vote is granted: the term is not old, no vote was cast in it, and the voter's log is not ahead. */
  lemma GrantExact(s: Server, args: VoteArgs)
    requires |s.log.records| > 0
    ensures HandleVote(s, args).1.term == s.currentTerm
    ensures HandleVote(s, args).1.voteGranted <==>
              && s.currentTerm <= args.term
              && (s.currentTerm == args.term ==> s.votedFor == NO_VOTE)
              && !Behind(args.lastLogTerm, args.lastLogIndex, s.log.LastLogTerm(), s.log.Size() - 1)
  {
  }

  /** Two servers never each hold the log against the other, and only equal last entries leave both content. */
  lemma StrictOrder(a: Server, b: Server)
    requires |a.log.records| > 0 && |b.log.records| > 0
    ensures !(HoldsLogAgainst(a, b) && HoldsLogAgainst(b, a))
    ensures !HoldsLogAgainst(a, b) && !HoldsLogAgainst(b, a) <==>
              a.log.LastLogTerm() == b.log.LastLogTerm() && a.log.Size() == b.log.Size()
  {
  }

  /** Not being held against carries over. */
  lemma NotAgainstTransitive(a: Server, b: Server, c: Server)
    requires |a.log.records| > 0 && |b.log.records| > 0 && |c.log.records| > 0
    requires !HoldsLogAgainst(a, b) && !HoldsLogAgainst(b, c)
    ensures !HoldsLogAgainst(a, c)
  {
  }

  /** Of any servers, one whose log none of them holds against it. */
  lemma {:induction false} MostUpToDate(servers: seq<Server>) returns (best: nat)
    requires servers != [] && forall i :: 0 <= i < |servers| ==> |servers[i].log.records| > 0
    ensures best < |servers| && forall i :: 0 <= i < |servers| ==> !HoldsLogAgainst(servers[i], servers[best])
  {
    var last := |servers| - 1;
    best := last;
    if last > 0 {
      var rest := servers[..last];
      var b := MostUpToDate(rest);
      assert forall i :: 0 <= i < last ==> servers[i] == rest[i];
      if !HoldsLogAgainst(servers[last], servers[b]) {
        best := b;
      } else {
        StrictOrder(servers[last], servers[b]);
        forall i | 0 <= i < last ensures !HoldsLogAgainst(servers[i], servers[last]) {
          NotAgainstTransitive(servers[i], servers[b], servers[last]);
        }
      }
    }
  }

  // ---------- counting ----------

  /** The candidate after the replies to the election of its term, in the order in which they come. */
  function Counted(s: Server, replies: seq<VoteReply>): (s': Server)
    requires s.currentTerm in s.votes && forall i :: 0 <= i < |replies| ==> replies[i].term <= s.currentTerm
    ensures s'.currentTerm == s.currentTerm && s.currentTerm in s'.votes && s'.log == s.log && s'.peers == s.peers
  {
    if replies == [] then s
    else HandleVoteReply(Counted(s, replies[..|replies| - 1]), s.currentTerm, replies[|replies| - 1])
  }

  function Granted(replies: seq<VoteReply>): nat {
    if replies == [] then 0
    else Granted(replies[..|replies| - 1]) + if replies[|replies| - 1].voteGranted then 1 else 0
  }

  /** A candidate leads as soon as its own vote and the ones granted are a majority, and not before. */
  lemma {:induction false} WinsExact(s: Server, replies: seq<VoteReply>)
    requires s.role == Candidate && s.currentTerm in s.votes && 2 * s.votes[s.currentTerm] <= s.peers
    requires forall i :: 0 <= i < |replies| ==> replies[i].term <= s.currentTerm
    ensures var s' := Counted(s, replies);
            && (s'.role == Leader <==> 2 * (s.votes[s.currentTerm] + Granted(replies)) > s.peers)
            && s'.role != Follower
            && (s'.role == Candidate ==> s'.votes[s.currentTerm] == s.votes[s.currentTerm] + Granted(replies))
  {
    if replies != [] {
      WinsExact(s, replies[..|replies| - 1]);
    }
  }

  /** What the voters answer. */
  function Answers(voters: seq<Server>, args: VoteArgs): (replies: seq<VoteReply>)
    requires forall i :: 0 <= i < |voters| ==> |voters[i].log.records| > 0
    ensures |replies| == |voters| && forall i :: 0 <= i < |voters| ==> replies[i] == HandleVote(voters[i], args).1
  {
    if voters == [] then []
    else Answers(voters[..|voters| - 1], args) + [HandleVote(voters[|voters| - 1], args).1]
  }

  lemma {:induction false} AllGranted(replies: seq<VoteReply>)
    requires forall i :: 0 <= i < |replies| ==> replies[i].voteGranted
    ensures Granted(replies) == |replies|
  {
    if replies != [] {
      AllGranted(replies[..|replies| - 1]);
    }
  }

  /** A candidate with the log of servers[best], its own vote counted, in a term above that of the others. */
  ghost predicate Stands(servers: seq<Server>, best: nat, c: Server)
    requires best < |servers|
  {
    && c.log == servers[best].log && c.role == Candidate && c.currentTerm in c.votes && c.votes[c.currentTerm] == 1
    && forall i :: 0 <= i < |servers| && i != best ==> servers[i].currentTerm < c.currentTerm
  }

  /** One timeout and the start of the election it calls make a candidate with its own vote in the next term. */
  lemma TimeoutStands(s: Server)
    requires s.role != Leader
    ensures var c := StartElection(ElectionTimeout(s), s.currentTerm + 1);
            && c.log == s.log && c.peers == s.peers && c.role == Candidate && c.currentTerm == s.currentTerm + 1
            && c.currentTerm in c.votes && c.votes[c.currentTerm] == 1 && c.votedFor == s.me
  {
  }

  function Others(servers: seq<Server>, best: nat): seq<Server>
    requires best < |servers|
  {
    servers[..best] + servers[best + 1..]
  }

  lemma OthersGrant(servers: seq<Server>, best: nat, c: Server)
    requires forall i :: 0 <= i < |servers| ==> |servers[i].log.records| > 0
    requires best < |servers| && Stands(servers, best, c)
    requires forall i :: 0 <= i < |servers| ==> !HoldsLogAgainst(servers[i], servers[best])
    ensures var replies := Answers(Others(servers, best), VoteRequest(c));
            && |replies| == |servers| - 1
            && forall i :: 0 <= i < |replies| ==> replies[i].term <= c.currentTerm && replies[i].voteGranted
  {
    var others := Others(servers, best);
    var replies := Answers(others, VoteRequest(c));
    hide HandleVote;
    forall i | 0 <= i < |replies| ensures replies[i].term <= c.currentTerm && replies[i].voteGranted {
      var j := if i < best then i else i + 1;
      assert others[i] == servers[j];
      GrantExact(servers[j], VoteRequest(c));
    }
  }

  /** The answers of the others make the candidate the leader. */
  ghost predicate IsElected(servers: seq<Server>, best: nat, c: Server)
    requires best < |servers| && forall i :: 0 <= i < |servers| ==> |servers[i].log.records| > 0
    requires |c.log.records| > 0 && c.currentTerm in c.votes
  {
    var replies := Answers(Others(servers, best), VoteRequest(c));
    (forall i :: 0 <= i < |replies| ==> replies[i].term <= c.currentTerm) && Counted(c, replies).role == Leader
  }

  lemma OthersElect(servers: seq<Server>, best: nat, c: Server)
    requires forall i :: 0 <= i < |servers| ==> |servers[i].log.records| > 0
    requires best < |servers| && Stands(servers, best, c) && 1 < c.peers < 2 * |servers|
    requires forall i :: 0 <= i < |servers| ==> !HoldsLogAgainst(servers[i], servers[best])
    ensures IsElected(servers, best, c)
  {
    OthersGrant(servers, best, c);
    var replies := Answers(Others(servers, best), VoteRequest(c));
    hide Answers, HoldsLogAgainst, Others, Counted;
    AllGranted(replies);
    WinsExact(c, replies);
  }

  /**
   * Of any majority of servers there is one whom the others elect: if a server with its log stands in a term
   * above theirs and counts its own vote, then their answers make it the leader. (A cluster of one never hears an
   * answer, and its server never leads.)
   */
  lemma MajorityElects(servers: seq<Server>) returns (best: nat)
    requires servers != [] && forall i :: 0 <= i < |servers| ==> |servers[i].log.records| > 0
    ensures best < |servers|
    ensures forall c: Server ::
              Stands(servers, best, c) && 1 < c.peers < 2 * |servers| ==> IsElected(servers, best, c)
  {
    best := MostUpToDate(servers);
    hide IsElected, Stands, HoldsLogAgainst;
    forall c: Server | Stands(servers, best, c) && 1 < c.peers < 2 * |servers|
      ensures |c.log.records| > 0 && c.currentTerm in c.votes && IsElected(servers, best, c)
    {
      OthersElect(servers, best, c);
    }
  }
}
