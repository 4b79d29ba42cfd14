/**
 * A peer that lags behind the leader's Base (src/raft/raft_replication.go:64-77, src/raft/raft_snapshot.go:50-130): the
 * snapshot that it is sent is the one of the agreed log, and once it is installed the next request is accepted
 * and makes the peer's log the leader's.
 */
module CatchUp {
  import opened KvTypes
  import opened RaftLog
  import opened RaftServer
  import opened Recovery
  import opened LateSnapshot

  /** A request of a current term that starts right behind Base is accepted exactly with the term agreed at Base. */
  lemma AtBaseAccepted(agreed: seq<LogRecord>, n: Node, args: AppendArgs)
    requires InSync(agreed, n) && args.term >= n.s.currentTerm && args.prevLogIndex == n.s.log.base
    ensures HandleAppend(n.s, args).1.success <==> args.prevLogTerm == agreed[n.s.log.base].term
  {
    hide After, ScanFor;
  }

  /** What a leader sends a peer that needs an entry at or below Base is the agreed snapshot, of its own term. */
  lemma SendsAgreedSnapshot(agreed: seq<LogRecord>, n: Node, peer: nat)
    requires InSync(agreed, n) && n.s.log.base > 0 && peer < |n.s.nextIndex| && n.s.nextIndex[peer] <= n.s.log.base
    ensures var out := ReplicationMessage(n.s, peer);
            && out.SendSnapshot? && IsOfAgreed(agreed, out.snapshot) && out.snapshot.lastIncludedIndex == n.s.log.base
            && out.snapshot.term == n.s.currentTerm && out.snapshot.leaderId == n.s.me
  {
    hide After;
  }

  /** So a peer that receives it in time is in sync. */
  lemma ReceivesInSync(agreed: seq<LogRecord>, leader: Node, peer: nat, n: Node)
    requires InSync(agreed, leader) && leader.s.log.base > 0
    requires peer < |leader.s.nextIndex| && leader.s.nextIndex[peer] <= leader.s.log.base
    requires InSync(agreed, n)
    ensures var out := ReplicationMessage(leader.s, peer);
            out.SendSnapshot? && (InTime(n.s, out.snapshot) ==> InSync(agreed, Receive(n, out.snapshot)))
  {
    SendsAgreedSnapshot(agreed, leader, peer);
    var args := ReplicationMessage(leader.s, peer).snapshot;
    hide InSync, IsOfAgreed, ReplicationMessage;
    if InTime(n.s, args) {
      InstallInTime(agreed, n, args);
    }
  }

  /** Base after a snapshot that is not behind it. */
  lemma ReceivedBase(n: Node, args: SnapshotArgs)
    requires args.term >= n.s.currentTerm && n.s.log.base <= args.lastIncludedIndex
    ensures Receive(n, args).s.log.base == args.lastIncludedIndex && Receive(n, args).s.currentTerm == args.term
  {
  }

  /** The leader's next message to a peer that took the snapshot is the rest of its log, right behind Base. */
  lemma NextIsRest(s: Server, peer: nat, args: SnapshotArgs, replyTerm: nat)
    requires peer < |s.nextIndex| == |s.matchIndex| && |s.log.records| > 0
    requires replyTerm <= s.currentTerm && args.lastIncludedIndex == s.log.base
    ensures var s' := HandleSnapshotReply(s, peer, args, replyTerm);
            && s' == s.(nextIndex := s'.nextIndex, matchIndex := s'.matchIndex)
            && s'.matchIndex == s.matchIndex[peer := s.log.base] && peer < |s'.nextIndex| && s'.nextIndex[peer] <= s.log.Size()
            && ReplicationMessage(s', peer) == SendAppend(AppendArgs(s.currentTerm, s.me, s.log.base, s.log.records[0].term,
                                                                     s.log.records[1..], s.commitIndex))
  {
  }

  /** A request that starts at Base and is accepted leaves what it brings behind Base. */
  lemma AcceptedAtBase(s: Server, args: AppendArgs)
    requires Readable(s, args) && args.prevLogIndex == s.log.base && HandleAppend(s, args).1.success
    ensures var s' := HandleAppend(s, args).0;
            && s'.log.base == s.log.base && |s'.log.records| == 1 + |args.entries|
            && s'.log.records[1..] == args.entries && s'.log.records[0] == s.log.records[0]
  {
    hide ScanFor;
    assert s.log.records[..1] == [s.log.records[0]];
    assert ([s.log.records[0]] + args.entries)[1..] == args.entries;
  }

  /**
   * A lagging peer catches up in two messages: the snapshot, and then one request that it accepts and that
   * makes its log the leader's above Base.
   */
  lemma CatchesUp(agreed: seq<LogRecord>, leader: Node, peer: nat, n: Node)
    requires InSync(agreed, leader) && leader.s.log.base > 0
    requires peer < |leader.s.nextIndex| == |leader.s.matchIndex| && leader.s.nextIndex[peer] <= leader.s.log.base
    requires InSync(agreed, n) && n.s.currentTerm <= leader.s.currentTerm && n.s.log.base <= leader.s.log.base
    ensures var out := ReplicationMessage(leader.s, peer);
            && out.SendSnapshot?
            && (InTime(n.s, out.snapshot) ==>
                  var n' := Receive(n, out.snapshot);
                  var leader' := HandleSnapshotReply(leader.s, peer, out.snapshot, n.s.currentTerm);
                  && peer < |leader'.nextIndex| && leader'.nextIndex[peer] <= leader'.log.Size() && |leader'.log.records| > 0
                  && var next := ReplicationMessage(leader', peer);
                     && next.SendAppend? && Readable(n'.s, next.append)
                     && var (s, reply) := HandleAppend(n'.s, next.append);
                        && reply.success && s.log.base == leader.s.log.base && s.log.Size() == leader.s.log.Size()
                        && s.log.records[1..] == leader.s.log.records[1..])
  {
    ReceivesInSync(agreed, leader, peer, n);
    SendsAgreedSnapshot(agreed, leader, peer);
    var args := ReplicationMessage(leader.s, peer).snapshot;
    assert leader.s.log.records[0].term == agreed[leader.s.log.base].term;
    NextIsRest(leader.s, peer, args, n.s.currentTerm);
    hide InSync, IsOfAgreed, ReplicationMessage, InTime, HandleSnapshotReply, Receive, HandleAppend;
    if InTime(n.s, args) {
      ReceivedBase(n, args);
      var n' := Receive(n, args);
      var next := ReplicationMessage(HandleSnapshotReply(leader.s, peer, args, n.s.currentTerm), peer).append;
      AtBaseAccepted(agreed, n', next);
      AcceptedAtBase(n'.s, next);
    }
  }
}
