# Verified models of logicRaft

This project models three parts of logicRaft in Dafny and proves what they are for.

* **Raft** (`src/raft`). Each handler is a function on a `Server` value (`RaftServer`), and each method of the class
  `Raft` (`RaftNode`) updates its fields step by step and is proved equal to the handler it implements. A cluster
  (`Cluster`) is a step machine over such servers: any number of them, any interleaving of timeouts, elections, votes,
  client commands, replication, replies, crashes and deliveries to the service, and a network that loses, delays,
  duplicates and reorders. The four safety properties of the Raft paper are theorems about every run of it.
* **The linearizability checker** (`src/porcupine`, `src/models/kv.go`). The search works on the heap as the original
  does: a doubly linked list that it takes apart and puts together, a bitset of 64-bit words, a cache from hashes to
  configurations. Its verdict is proved exact for every model and every history, it is proved to end, and the partial
  linearizations it reports are proved longest. From there the proof goes on to timestamps, to the partition by key and
  to the verdict on the whole store.
* **The key/value service** (`src/kvraft`). The apply loop is a fold over the log with a duplicate table: every write
  takes effect at most once, retries leave no trace, snapshot plus replay equals replay, and the answers of the apply
  loop form a linearizable history.

`dafny verify dfyconfig.toml` checks the whole project; every proof obligation stays below a resource limit of 2,000,000.

## What is assumed, and what is false of the code

The theorems about the cluster hold of the code under two conditions on a run. Each is needed: without it there is a
run, given here step by step, in which the property fails.

* **Own-term votes** (`Cluster.OwnTermVotes`). A vote reply that makes a leader belongs to the candidate's current term.
  README.md:789 of the repository says that askVoteFromPeer checks this; the code compares `rf.currentTerm` with itself
  (src/raft/raft_election.go:82) and so checks the role alone. `Counterexamples.TwoLeadersOfOneTerm` is a run in which a
  late reply makes a second leader of one term. `ElectionSafety.MajorityIffOwnTerm` is the exact condition: a reply makes
  a leader with a majority of its own term if and only if it is a reply of that term. Late replies that elect no one are
  part of the runs.
* **Requests that reach far enough** (`Cluster.AppendsReach`). An append request that a follower accepts reaches at least
  as far as what the follower has taken over in the request's term. AppendEntries cuts off whatever lies behind
  PrevLogIndex, conflict or not (src/raft/raft_replication.go:206), so a shorter late request takes back entries that
  were counted as replicated. `LogMatching.TruncationExact` is the exact condition for one request, in any run:
  everything taken over in its term is kept if and only if the request reaches that far.
  `Counterexamples.CommittedTwice` is a run that breaks the condition at one step only, and two servers commit different
  entries at one index. `OrderedAppends.InOrderIsEnough` shows that a network that keeps the order of one leader's
  requests meets the condition. Election Safety, Log Matching and the backup of nextIndex do not need it.

Two more properties of the code are false as it stands.

* **Compaction shows.** A request of a current term whose PrevLogIndex lies below Base makes the code index its records
  before their start, and the process panics (src/raft/raft_replication.go:198, src/raft/log.go:29); a server that never
  compacts answers it. `Compaction.LateRequestPanics` is a run, a first request that comes again after the follower's
  snapshot. `Compaction.CompactionInvisible` says that the answers agree if and only if no such request comes and no
  snapshot index lies past the log.
* **A late snapshot takes entries back.** A snapshot from the leader may be older than what the service has applied, and
  the service takes it over (src/kvraft/server.go:214-219). `LateSnapshot.RolledBack` shows entries that are taken back
  and never delivered again. A snapshot in time does no harm on any log (`LateSnapshot.InstallInTime`); on every log in
  which the state tells the position, being in time is also necessary (`LateSnapshot.InstallExact`).

Progress is stated beside safety: some server can always win a majority's votes (`ElectionOrder`), a leader commits whatever
a majority confirmed and backs up past nothing but rejected probes and entries of the conflicting term (`Progress`), and
a peer behind Base catches up (`CatchUp`).

Encoding with labgob is taken to be lossless. Model states are compared with equality. A history given to the checker
has Call <= Return for every operation.

## Model

| member | source | states |
|---|---|---|
| ElectionSafety.ElectionSafety | src/raft/raft_election.go:57-166 | no term has two leaders, at one time or at different times of any run, whatever crashes in between |
| ElectionSafety.MajorityIffOwnTerm | src/raft/raft_election.go:81-94 | a reply that makes a leader makes one with a counted majority of the term it leads if and only if the reply is of that term |
| ElectionSafety.StaleWin | src/raft/raft_election.go:81-94 | a late reply of another election wins only a candidate whose own term's votes are too few |
| ElectionSafety.ElectionInvHolds | src/raft/raft_election.go:57-166 | every state of a run keeps ballots, counted votes, messages and leaders consistent with each other |
| ElectionOrder.GrantExact | src/raft/raft_election.go:131-166 | a vote is granted if and only if the term is not old, no vote was cast in it, and the voter's last entry is not ahead by term and then index; the answer carries the voter's term |
| ElectionOrder.StrictOrder | src/raft/raft_election.go:188-196 | no two servers each find themselves more up to date than the other's request, and neither does exactly when last term and last index are equal |
| ElectionOrder.NotAgainstTransitive | src/raft/raft_election.go:188-196 | not being more up to date is transitive |
| ElectionOrder.MostUpToDate | src/raft/raft_election.go:188-196 | among any servers there is one whose request none of them refuses for its log |
| ElectionOrder.WinsExact | src/raft/raft_election.go:81-94 | whatever the order of the replies, a candidate leads exactly when its own vote and those granted are a majority |
| ElectionOrder.TimeoutStands | src/raft/raft_election.go:39-122 | a timeout and the start of the election make a candidate of the next term with its own vote counted |
| ElectionOrder.MajorityElects | src/raft/raft_election.go:57-196 | in any majority there is a server such that, if it stands in a term above theirs, the answers of the others make it the leader |
| LogMatching.LogMatching | src/raft/raft_replication.go:191-209 | two logs, of any servers at any times, with the same term at an index agree on everything up to it |
| LogMatching.AcceptCopiesLeader | src/raft/raft_replication.go:191-209 | an accepted request makes the follower's log the leader's, as it was when the request was sent |
| LogMatching.FastBackup | src/raft/raft_replication.go:120-141 | a rejection of the current probe strictly lowers nextIndex, leaves it at least 1 and changes nothing else |
| Progress.ShortLogBackup | src/raft/raft_replication.go:123-141 | after a rejection for a short log the next probe is at the last index of that log, or where it was if that is lower, and every probe skipped would have been rejected |
| Progress.ConflictIsFirst | src/raft/raft_replication.go:198-203 | a rejection for another term names that term and the place of its first entry in the follower's records |
| Progress.ConflictTarget | src/raft/raft_replication.go:125-138 | the next probe is at the first entry of the conflicting term in the leader's log, or at the follower's index if it has none, and never past the one before |
| Progress.BackupLosesNothing | src/raft/raft_replication.go:123-203 | over every run, of the probes that a rejection skips the follower would have accepted exactly those at entries of the conflicting term, and none if its log was too short |
| Progress.SkipsAccepted | src/raft/raft_replication.go:128-131 | logs for which a probe at an entry of the conflicting term is skipped although it would have been accepted |
| Progress.AcceptedTakesOver | src/raft/raft_replication.go:205-216 | an accepted request leaves the follower with its own entries up to PrevLogIndex and the leader's from there to the end, and with the larger commitIndex |
| LogMatching.TruncationExact | src/raft/raft_replication.go:205-209 | in any run, an accepted request leaves the follower with all that it took over in the request's term if and only if the request reaches that far |
| LeaderCompleteness.UpToDateHolds | src/raft/raft_election.go:155-196 | a candidate that a voter finds up to date holds every entry that the voter took over and that can still be chosen |
| LeaderCompleteness.NewLeaderHolds | src/raft/raft_election.go:87-94 | a newly elected leader holds every entry of an earlier term that can still be chosen |
| LeaderCompleteness.ChoiceInvHolds | src/raft/raft_replication.go:143-157 | in every state of a run no entry that can still be chosen is missing from the log of a later leader |
| StateMachineSafety.StateMachineSafety | src/raft/raft_replication.go:147-216 | servers that have committed an index, at any times, hold the same entry there, inside their logs |
| StateMachineSafety.AppliedOnce | src/raft/raft_application.go:9-29 | no index is ever delivered to the services with two different entries |
| StateMachineSafety.LeaderHoldsCommitted | src/raft/raft_election.go:187-196 | a leader of a later term holds everything that any server had committed |
| StateMachineSafety.AdvanceChooses | src/raft/raft_replication.go:150-156 | when the leader raises commitIndex, a majority took over that entry of its own term |
| Progress.CommitExact | src/raft/raft_replication.go:147-156 | after a success reply that counts, commitIndex is the largest index that a majority reaches if that is new and of the leader's term, and is otherwise unchanged; the match index is what was confirmed |
| Progress.NextIsBehindConfirmed | src/raft/raft_replication.go:147-148 | the next message to that peer starts right behind what it confirmed and holds the rest of the log |
| Progress.NothingLeftUncommitted | src/raft/raft_replication.go:147-156 | over every run, a success reply that counts leaves no entry of the leader's term uncommitted that a majority of match indices reaches |
| Progress.RoundCommitsAll | src/raft/raft_replication.go:46-157 | a leader whose last entry is of its term has all of its log committed once peers that make a majority with it have confirmed, in whatever order |
| StateMachineSafety.AcceptKeeps | src/raft/raft_replication.go:205-216 | what a request that reaches far enough makes of a log keeps every entry that the follower had committed |
| OrderedAppends.InOrderIsEnough | src/raft/raft_replication.go:46-94 | if followers accept one leader's requests in the order sent, every accepted request reaches far enough |
| StateMachineSafety.NoPanic | src/raft/raft_replication.go:46-229 | no enabled step of a run indexes a log, a slice of peers or a batch out of range |
| StateMachineSafety.UnclampedCommit | src/raft/raft_replication.go:211-216 | taking over LeaderCommit as it is equals taking the smaller of it and the last new index |
| AgreedLog.AgreedLogExists | src/raft/raft_application.go:9-29 | for every run there is one log, from the dummy entry on, of which every server's committed entries, at every time, are a prefix |
| Counterexamples.TwoLeadersOfOneTerm | src/raft/raft_election.go:81-94 | a run with two leaders of one term, and logs that break Log Matching, after a late vote reply |
| Counterexamples.CommittedTwice | src/raft/raft_replication.go:205-209 | a run in which two servers commit different entries at one index, and the one step of it at which an accepted request does not reach far enough |
| Majority.MajorityIndexIsLargest | src/raft/raft_replication.go:221-229 | the index chosen is the largest that a strict majority of the match indices reaches |
| Majority.LargestReachedIsMajority | src/raft/raft_replication.go:221-229 | it is the only index that a strict majority reaches with none larger |
| Majority.QuorumsMeet | src/raft/raft_election.go:91-94 | two majorities have a member in common |
| Majority.SortInts | src/raft/raft_replication.go:223-225 | sorts in place, to the sorted sequence of what was there |
| Majority.InsertFirst | src/raft/raft_replication.go:223-225 | moves an element to its place in the sorted rest, in place |
| RaftLog.ScanForIsExact | src/raft/log.go:40-49 | on ascending terms the scan finds the first entry of a term that occurs and answers InvalidIndex otherwise |
| CommitRule.CommitIsConfirmed | src/raft/raft_replication.go:147-156 | over every run of one process with snapshots, commitIndex advances only to an index of its own term that a majority confirmed to this leader in this term |
| CommitRule.InvAfter | src/raft/raft_snapshot.go:27-46 | Base and every snapshot ever offered stay at or below commitIndex |
| CommitRule.LaterTermRules | src/raft/raft_roleTrans.go:4-24 | any message of a later term makes a follower of that term, and that is saved; no other message changes the term, and a request of an older term changes nothing |
| Compaction.CompactionInvisible | src/raft/raft_snapshot.go:21-47 | over every run, a server that compacts its log and one that never does give the same answers, the conflict index aside, if and only if no request of a current term reaches below Base and no snapshot index lies past the log; then the records stand for the whole log |
| Compaction.LateRequestPanics | src/raft/raft_replication.go:192-203 | a run in which a request that comes again after the follower's snapshot makes the process panic |
| Compaction.SameReads | src/raft/log.go:24-38 | size, last term and every entry above Base read the same from the compacted and from the whole log |
| Compaction.CompactRefines | src/raft/raft_snapshot.go:31-44 | compaction at any index keeps the log a refinement of the whole one |
| Compaction.FirstLogForShifts | src/raft/log.go:40-49 | what the offset that firstLogFor returns is in terms of the whole log |
| RaftNode.FirstLogFor | src/raft/log.go:40-49 | the loop answers what the scan does |
| RaftNode.VoteRequestsAreAll | src/raft/raft_election.go:105-120 | exactly the other peers are asked for their votes, with the same request, in ascending order and so once each |
| RaftNode.ReplicationMessagesAreAll | src/raft/raft_replication.go:56-91 | exactly the other peers are sent a message, once each: the stored snapshot with Base and the term there if nextIndex is at or below Base, and otherwise every entry from nextIndex on behind the one before |
| RaftNode.Raft.Make | src/raft/raft.go:111-149 | a new process is what is on disk, with commitIndex and lastApplied at Base |
| RaftNode.Raft.ReadPersist | src/raft/raft_persistence.go:35-66 | takes over term, vote and log from disk, and nothing from an empty one |
| RaftNode.Raft.PersistLocked | src/raft/raft_persistence.go:21-32 | term, vote and log are on disk; no snapshot keeps the one that is stored |
| RaftNode.Raft.BecomeFollowerLocked | src/raft/raft_roleTrans.go:4-24 | refines the handler; the term never falls, the vote changes only when it rises, and what was saved stays saved |
| RaftNode.Raft.BecomeCandidateLocked | src/raft/raft_roleTrans.go:26-38 | refines the handler; all but a leader vote for themselves in the next term and save that |
| RaftNode.Raft.BecomeLeaderLocked | src/raft/raft_roleTrans.go:40-52 | refines the handler: the loop sets nextIndex and matchIndex of every peer |
| RaftNode.Raft.ElectionTimeoutLocked | src/raft/raft_election.go:39-54 | refines the handler: all but a leader stand for election |
| RaftNode.Raft.StartElectionLocked | src/raft/raft_election.go:97-122 | refines the handler and asks exactly the other peers |
| RaftNode.Raft.RequestVote | src/raft/raft_election.go:131-166 | refines the handler, state and reply; granted if and only if the term is not old, no vote was cast in it and the voter is not ahead; a granted vote is saved |
| RaftNode.Raft.CountVote | src/raft/raft_election.go:67-94 | refines the handler, with the guard on the role alone; a candidate leads exactly when it then counts more than half of some election |
| RaftNode.Raft.StartLocked | src/raft/raft.go:82-98 | refines the handler: only a leader appends, and answers with the new index |
| RaftNode.Raft.StartReplicationLocked | src/raft/raft_replication.go:46-94 | refines the handler, counts the leader's own log, and sends each other peer exactly what is due to it: snapshot or entries, field by field |
| RaftNode.Raft.AppendEntries | src/raft/raft_replication.go:166-218 | refines the handler, state and reply, for every request that does not panic; accepted if and only if the term is not old and the entry before is there with its term; a rejection names the size of a short log, or the conflicting term and its first entry; an accepted one is saved and takes over LeaderCommit |
| RaftNode.Raft.GetMajorityIndexLocked | src/raft/raft_replication.go:221-229 | the copy, the sort and the middle give the majority index, and leave matchIndex alone |
| RaftNode.Raft.BackUpLocked | src/raft/raft_replication.go:123-141 | the next probe after a rejection, never past the one before; for a short log the index that was named |
| RaftNode.Raft.AdvanceCommitLocked | src/raft/raft_replication.go:150-156 | commitIndex becomes the largest index that a majority reaches if that is new and of the leader's term, and otherwise stays |
| RaftNode.Raft.ReplyToAppend | src/raft/raft_replication.go:101-157 | refines the handler of a reply; a later term deposes; a success sets the match index to what was confirmed, nextIndex right behind it, and commits what a majority then reaches |
| RaftNode.Raft.Snapshot | src/raft/raft_snapshot.go:21-47 | refines compaction and saves the snapshot; Base never falls |
| RaftNode.Raft.CopySuffix | src/raft/raft_snapshot.go:35-44 | the loop copies the entries behind the index |
| RaftNode.Raft.InstallSnapshotLocked | src/raft/raft_snapshot.go:81-121 | refines the handler; a snapshot of a current term past Base becomes Base with its own term there, keeps every entry behind it, lifts commitIndex and lastApplied, and is saved with its data; any other leaves log and indices alone |
| RaftNode.InstallEffect | src/raft/raft_snapshot.go:81-121 | the same of the handler as a function |
| RaftNode.Raft.ReplyToSnapshot | src/raft/raft_snapshot.go:54-72 | refines the handler of the reply; nextIndex is right behind the snapshot, and a later term deposes |
| RaftNode.Raft.CollectEntries | src/raft/raft_application.go:9-14 | the loop collects exactly the entries between lastApplied and commitIndex |
| Linearizability.FullPartial | src/porcupine/model.go:26-50 | a linearization is a partial linearization of everything, and the other way around |
| Linearizability.ClosedHoldsAll | src/porcupine/checker.go:190-243 | a set of configurations with the root and all successors holds every configuration there is |
| Search.PushInv | src/porcupine/checker.go:198-208 | linearizing a new configuration keeps the search's invariant |
| Search.PopInv | src/porcupine/checker.go:235-241 | backing up from a configuration that is done with keeps the search's invariant |
| Search.SkipInv | src/porcupine/checker.go:208-213 | passing over a call that leads nowhere new keeps the search's invariant |
| Search.ExhaustedMeansNone | src/porcupine/checker.go:215-217 | a search that ends with an empty stack has missed no linearization, although the cache cut branches off |
| Search.ExhaustedLongest | src/porcupine/checker.go:219-234 | nor has it missed a longer partial linearization with any operation |
| EntryList.Unlink | src/porcupine/checker.go:159-167 | takes one node out; every node that is in has its neighbours as links, every node that is out the ones it had |
| EntryList.Relink | src/porcupine/checker.go:169-177 | puts the node back that was taken out last |
| EntryList.Lift | src/porcupine/checker.go:159-167 | takes a call and its return out of the list |
| EntryList.Unlift | src/porcupine/checker.go:169-177 | undoes the last lift |
| EntryList.ListReadsRest | src/porcupine/checker.go:159-177 | followed from the head, the list is exactly the nodes that are not out, in their order, both ways |
| EntryList.LinksRestored | src/porcupine/checker.go:169-177 | the places that are out determine every link, so undoing lifts restores the list as it was |
| EntryList.InsertBefore | src/porcupine/checker.go:70-81 | links a node in before another one |
| EntryList.Length | src/porcupine/checker.go:83-90 | counts the nodes of a list |
| EntryList.MakeLinkedEntries | src/porcupine/checker.go:121-138 | the list holds the entries in order, and every call knows its return |
| Bitset.NewBitset | src/porcupine/bitset.go:10-17 | the empty set, in the words needed |
| Bitset.Clone | src/porcupine/bitset.go:19-23 | a copy of its own |
| Bitset.Set | src/porcupine/bitset.go:29-33 | adds exactly one member |
| Bitset.Clear | src/porcupine/bitset.go:35-39 | removes exactly one member |
| Bitset.Get | src/porcupine/bitset.go:41-44 | membership |
| Bitset.Popcnt | src/porcupine/bitset.go:46-52 | the number of members |
| Bitset.Hash | src/porcupine/bitset.go:54-60 | a function of the words alone |
| Bitset.Equals | src/porcupine/bitset.go:62-72 | equality of words, which for one length is equality of the sets |
| Bitset.SameMembers | src/porcupine/bitset.go:62-72 | bitsets of one length are the same words exactly when they are the same set |
| Checker.CacheContains | src/porcupine/checker.go:145-152 | finds an entry exactly when it is cached |
| Checker.AddStandsFor | src/porcupine/checker.go:198-203 | with every entry added, lookup in the buckets stays membership in the set of configurations met |
| Checker.RecordLongest | src/porcupine/checker.go:219-234 | every operation on the stack gets it as its longest if it is longer |
| Checker.CheckSingle | src/porcupine/checker.go:179-253 | ends; true exactly when the history is linearizable; then every result is a linearization; the partial linearizations reported are longest, and none is missing |
| Timestamps.SortByTime | src/porcupine/checker.go:29-59 | some permutation in which calls precede returns of the same time |
| Timestamps.MakeEntries | src/porcupine/checker.go:48-60 | entries of the operations at places that stand in the same order of time |
| Timestamps.PlacesInOrder | src/porcupine/checker.go:39-46 | one operation returns before another is called in the list exactly when it does by timestamps |
| Timestamps.SamePartial | src/porcupine/checker.go:48-60 | only the order of time counts for linearizations, whole or partial |
| KvModel.Locality | src/models/kv.go:20-56 | a history is linearizable as one store exactly when its part on each key is linearizable as one value |
| KvModel.StoreToKey | src/models/kv.go:38-56 | a linearization of the store gives one of every key |
| KvModel.Merge | src/models/kv.go:20-56 | linearizations of the keys merge into one of the store |
| Porcupine.Partition | src/models/kv.go:20-36 | exactly the nonempty parts by key |
| Porcupine.CheckPartition | src/porcupine/checker.go:365-373 | the verdict on timestamps; on true every result is a linearization on the timestamps; the partial linearizations are longest |
| Porcupine.CheckOperations | src/porcupine/porcupine.go:5-8 | true exactly when the history is linearizable against the whole store |
| KvServer.ExactlyOnce | src/kvraft/server.go:179-199 | the store is what the writes that take effect give, each run once without a table; a write takes effect exactly when its number exceeds every earlier one of its client |
| KvServer.RetriesChangeNothing | src/kvraft/server.go:60-63 | dropping all retries from a log changes neither the store nor the table |
| KvServer.EachRequestOnce | src/kvraft/server.go:179-199 | if clients' requests first show up in order, the store is what running each once gives |
| KvServer.AnswersAreFresh | src/kvraft/server.go:186-199 | every answer, from the table or not, is what executing the operation now would answer |
| KvServer.KVStateMachine.Get | src/kvraft/state_machine.go:13-18 | the value, or ErrNoKey |
| KvServer.KVStateMachine.Put | src/kvraft/state_machine.go:20-23 | sets one key |
| KvServer.KVStateMachine.Append | src/kvraft/state_machine.go:25-28 | appends to one key, an absent one counting as empty |
| KvServer.KVServer.constructor | src/kvraft/server.go:143-169 | an empty service, or the one that the snapshot holds |
| KvServer.KVServer.RequestDuplicated | src/kvraft/server.go:60-63 | whether a client's number was seen |
| KvServer.KVServer.ApplyToStateMachine | src/kvraft/server.go:223-235 | the effect on the store and the reply |
| KvServer.KVServer.HandleCommand | src/kvraft/server.go:176-199 | refines the fold: an old index is passed over, any other one applied and answered |
| KvServer.KVServer.MakeSnapshot | src/kvraft/server.go:248-254 | the store and the table |
| KvServer.KVServer.RestoreFromSnapshot | src/kvraft/server.go:256-271 | the store and the table of the snapshot; an empty one changes nothing |
| KvServer.KVServer.HandleSnapshot | src/kvraft/server.go:214-219 | takes over whatever snapshot it is sent |
| Recovery.SnapshotPlusReplay | src/kvraft/server.go:172-221 | on any log with which the committed entries agree, over every run of handlers, deliveries, snapshots and crashes, the service holds the replay of the entries it was given, the stored snapshot is that of exactly Base entries, and the term at Base is the agreed one |
| Recovery.ReplicasAgree | src/raft/raft.go:139-143 | servers that agree with one log and were given equally many entries hold the same state, whatever snapshots and crashes lie behind them |
| Recovery.AppliesAllCommitted | src/raft/raft_application.go:9-29 | one round of the apply loop leaves the service with the replay of everything that was committed when it began |
| Recovery.HandlersLeaveApplying | src/raft/raft_persistence.go:21-32 | no handler but those of snapshots touches what is applied, collected or stored as a snapshot |
| LateSnapshot.InstallInTime | src/raft/raft_snapshot.go:97-129 | a snapshot of the agreed log, with the term agreed at its index, that comes in time keeps a server in sync, whatever the log |
| LateSnapshot.InstallExact | src/raft/raft_snapshot.go:97-129 | on every log whose prefixes give different states, a snapshot keeps a server in sync if and only if it is in time |
| LateSnapshot.RolledBack | src/kvraft/server.go:214-219 | a run, and a snapshot after it, that takes an entry back which is never delivered again |
| CatchUp.AtBaseAccepted | src/raft/raft_replication.go:191-209 | a request of a current term that starts at Base is accepted if and only if it names the term that was agreed there |
| CatchUp.SendsAgreedSnapshot | src/raft/raft_replication.go:66-77 | what a leader in sync sends a peer that needs an entry at or below Base is the snapshot of the agreed log at Base, with the agreed term |
| CatchUp.ReceivesInSync | src/raft/raft_snapshot.go:81-130 | a peer in sync that receives it in time stays in sync |
| CatchUp.NextIsRest | src/raft/raft_snapshot.go:65-71 | after the reply the leader's next message to that peer is everything behind Base |
| CatchUp.CatchesUp | src/raft/raft_snapshot.go:54-130 | a lagging peer catches up with two messages: the snapshot in time, and one request that it accepts and that makes its log the leader's behind Base |
| ServiceHistory.ServiceIsLinearizable | src/kvraft/server.go:172-235 | commands applied in log order, each between its call and its return, are answered by the apply loop as a linearizable history of the store, if every write takes effect |
| ServiceHistory.RetriedServiceIsLinearizable | src/kvraft/server.go:172-235 | the same for any log with retries in which clients' requests first show up in order: each request with the answer of its first entry |
| ServiceHistory.FirstAnswer | src/kvraft/server.go:186-199 | dropping the retries changes no answer that a first entry got |

## Left out

- InstallSnapshot inside the cluster: cluster runs keep Base = 0; compaction, the commit rule and recovery are proved per server.
- InstallSnapshot between the deliveries of one batch: only what it does to the positions (`LateSnapshot.InTime`) is stated.
- Timers and anything else that depends on time passing: what is proved of progress is what one election, one round of replication or one round of the apply loop achieves when its messages arrive.
- RPC transport and encoding (labrpc, labgob): messages are values, and a snapshot's bytes are the pair they encode.
- Notification channels, timeouts and the clerk: notification is by index only, so nothing is said about whose request a waiting client is answered for.
- The duplicate check that PutAppend makes before it calls Start, which only saves a log entry.
- Goroutines, the kill flag and timeouts of checkParallel: partitions are checked one after the other, and the first failure ends it; an empty history, on which the original waits forever, is excluded.
- A Model with an Equal of its own: states are compared with equality.
- Event histories (renumber, convertEntries), linearizationInfo and the visualization.
- The order of the partitions, which the original sorts by key and which no verdict depends on.
- Checker.CheckSingle: the cached clones of the bitset are kept as the words they hold, since nothing changes them after they are stored.
- Timestamps.SortByTime: sort.Sort is modelled by its contract, and no theorem uses more than that.
- ServiceHistory.RetriedServiceIsLinearizable: that a clerk numbers its requests in order and waits for each answer is taken as a hypothesis on the log (`KvServer.FirstsInOrder`).
- src/kvraft/db.go, the tests and their configuration, and logging.
