/**
 * What State Machine Safety is for: in every run of the cluster there is one log that all servers commit,
 * each server a prefix of it, so that the service on top may be taken to replay one log.
 */
module AgreedLog {
  import opened RaftLog
  import opened Cluster
  import opened StateMachineSafety
  import Progress
  import Recovery

  lemma ServerFacts(states: seq<Cluster>, steps: seq<Step>, a: nat, i: nat)
    requires Run(states, steps) && OwnTermVotes(states, steps) && AppendsReach(states, steps)
    requires a < |states| && i < |states[a].servers|
    ensures states[a].servers[i].log.base == 0 && 0 <= states[a].servers[i].commitIndex < |states[a].servers[i].log.records|
    ensures states[a].servers[i].log.records[0] == DUMMY
  {
    CommitInvHolds(states, steps, a);
    Progress.TermsUpToOwn(states, steps, a, i);
  }

  /** The server that has committed most, at any time of the run. */
  lemma FurthestCommit(states: seq<Cluster>) returns (a: nat, i: nat)
    requires exists b: nat :: b < |states| && |states[b].servers| > 0
    ensures a < |states| && i < |states[a].servers|
    ensures forall b: nat, j: nat :: b < |states| && j < |states[b].servers| ==>
              states[b].servers[j].commitIndex <= states[a].servers[i].commitIndex
  {
    a :| a < |states| && |states[a].servers| > 0;
    i := 0;
    for b := 0 to |states|
      invariant a < |states| && i < |states[a].servers|
      invariant forall c: nat, j: nat :: c < b && j < |states[c].servers| ==>
                  states[c].servers[j].commitIndex <= states[a].servers[i].commitIndex
    {
      for k := 0 to |states[b].servers|
        invariant a < |states| && i < |states[a].servers|
        invariant forall c: nat, j: nat :: c < b && j < |states[c].servers| ==>
                    states[c].servers[j].commitIndex <= states[a].servers[i].commitIndex
        invariant forall j: nat :: j < k ==> states[b].servers[j].commitIndex <= states[a].servers[i].commitIndex
      {
        if states[b].servers[k].commitIndex > states[a].servers[i].commitIndex {
          a, i := b, k;
        }
      }
    }
  }

  /** One log for the whole run, from the dummy entry on: what any server has committed at any time is a prefix of it. */
  lemma AgreedLogExists(states: seq<Cluster>, steps: seq<Step>) returns (agreed: seq<LogRecord>)
    requires Run(states, steps) && OwnTermVotes(states, steps) && AppendsReach(states, steps)
    ensures agreed != [] && agreed[0] == DUMMY
    ensures forall a: nat, i: nat :: a < |states| && i < |states[a].servers| ==> Recovery.Agrees(agreed, states[a].servers[i])
  {
    hide Next, OwnTermVote, Reaches;
    agreed := [DUMMY];
    if exists b: nat :: b < |states| && |states[b].servers| > 0 {
      var b, j := FurthestCommit(states);
      ServerFacts(states, steps, b, j);
      var most := states[b].servers[j];
      agreed := most.log.records[..most.commitIndex + 1];
      forall a: nat, i: nat | a < |states| && i < |states[a].servers| ensures Recovery.Agrees(agreed, states[a].servers[i]) {
        var s := states[a].servers[i];
        ServerFacts(states, steps, a, i);
        forall idx | 0 < idx <= s.commitIndex ensures s.log.Get(idx) == agreed[idx] {
          StateMachineSafety.StateMachineSafety(states, steps, a, i, b, j, idx);
        }
      }
    }
  }
}
