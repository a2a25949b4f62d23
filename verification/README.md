# Raft and almost-local reads, in Dafny

This project models two layers of the repository and proves what they promise together.

**Raft** (`src/raft`). A cluster of any number of peers is a step machine: one event is one critical
section of a peer (a timeout, an RPC handler, the handling of a reply, `Start`, the two halves of the
applier) or a crash followed by a restart. The network is the set of all messages ever sent, so a message
may be handled late, out of order, several times or never. A peer's disk is kept apart from its memory.

**Almost-local reads** (`src/kvraft1`). A key/value server queues its Gets, pushes a "sync" Put through the
replicated log and answers the queued Gets from its own store when it applies that entry.

The two layers meet in `ReplicatedLog`, one growing log from which replicas take commands in order and start
over after a crash. An in-order cluster is proved to be such a log; the service is proved to use it so, and
`KvSystem` puts both together: Raft peers below, servers above, Submit calling Start and GetState of the peer
beside it. Its theorems are about runs of that whole system; linearizability, of RPCs and of whole Clerk
operations, holds under the two hypotheses explained below, that Raft messages are handled in order and that the
servers' steps are timely.

## How it is organised

| files | content |
|---|---|
| `RaftTypes`, `RaftHandlers` | data, and what each critical section computes |
| `RaftServer` | the Raft struct as a class; each method is proved to compute what `RaftHandlers` says |
| `RaftCluster` | the cluster: events, network, history, runs, the in-order hypothesis |
| `RaftInvariant`, `RaftSteps` | the invariant of the unrestricted network |
| `RaftSafety`, `RaftSafetySteps` | the invariant of in-order runs; Leader Completeness |
| `RaftAcks`, `RaftBackup`, `RaftLedger` | acknowledgements, fast backup, the committed log |
| `RaftVotes`, `RaftDisk` | votes within one term, and the disk beside the memory |
| `RaftElections`, `RaftTerms` | whom peers vote for, and how terms move |
| `Paths`, `RaftProgress` | what a majority can always bring about |
| `RaftTheorems`, `RaftWitness` | theorems about whole runs, and three runs that show what fails |
| `ReplicatedLog` | the interface between the layers |
| `KvStore`, `KvModel` | the versioned store, and the sequential specification it refines |
| `Submits` | the waiting Submits of one RSM |
| `AlrMachine` | almost-local reads: servers with their RSM, sync goroutines, clients; the timeliness hypothesis |
| `AlrInvariant`, `AlrSteps` | the invariant of every interleaving |
| `AlrPromises` | what a sync promises its Gets, and what the queue length covers |
| `AlrSubmits` | what becomes of a Submit |
| `AlrTheorems`, `AlrWitness` | theorems about whole runs, and runs with a stale read or a negative length |
| `KvServer`, `Rsm`, `KvClerk` | the KVServer, RSM and Clerk structs as classes, and what their answers mean |
| `KvRelease` | the sync branch in one go and step by step |
| `KvHistories`, `KvWitness` | histories of Clerk operations and their linearizations, and two runs with an unacceptable result |
| `KvSystem` | servers on top of Raft: linearizability, Submit and the Clerks of the whole system |

A class method's `ensures` equates the new fields with a function of the old ones; the machines step with
exactly these functions, and the theorems are about the machines.

## Where the code departs from its own documents

* **Truncation.** `AppendEntries` drops everything after a match (`src/raft/log_replication.go:60-70`), also when the
  message is a late and shorter one of the same term; requests get their own goroutines
  (`src/labrpc/labrpc.go:157-164`), so that order can happen. Log Matching, Election Safety and the backup results
  hold regardless. What Raft promises about committed entries does not: `RaftWitness.SwappedMessagesBreakSafety` is a
  run of three peers in which two of them apply different commands at index 1. The results about committed entries
  therefore assume the *in-order hypothesis* `RaftCluster.InOrder`: a peer never accepts an AppendEntries of a term
  that ends below one it already accepted in that term. `RaftTheorems.AcknowledgementsHoldIffOrdered` shows that the
  hypothesis is exact for what the commit rule relies on: acknowledgements stay true throughout a run if and only if
  the run is in order.
* **Votes.** A candidate that hears the leader of its own term clears its vote within the term
  (`src/raft/log_replication.go:33-36`, `src/raft/leader_election.go:152-157`), so "one vote per term" is false:
  `RaftWitness.VotesTwiceInOneTerm`. It holds throughout a run if and only if no peer grants a vote in a term it stood
  in (`RaftTheorems.OneVotePerTermIff`); nobody else ever votes twice (`RaftTheorems.OnlyStandersVoteTwice`). Election
  Safety holds all the same: whoever helped elect the leader of a term is never among those who forget.
* **Later terms.** A peer that stands for election or leads follows a later term as soon as a reply of that election
  or reign tells of it (`RaftTerms.StepHeeds`), and never leads the old term again (`RaftTerms.NeverLeadsAgain`). The
  one exception is a belated answer to a ballot: it is ignored by whoever has won meanwhile
  (`src/raft/leader_election.go:105-107`), whatever term it carries (`RaftTerms.DeposedAtOnce`).
* **A single peer.** Votes are counted only when one arrives (`src/raft/leader_election.go:116-125`), so a cluster of
  one never has a leader: `RaftProgress.AloneNobodyLeads`. From two peers on a majority can always go on by itself:
  `RaftProgress.AlwaysRecoverable`.
* **Persistence.** A truncation without new entries is not written (`src/raft/log_replication.go:71-74`), so the log
  on disk may be longer than the one in memory, as in `RaftWitness.DiskOutlivesMemory`. It is always an extension of
  it, and equal to it throughout a run if and only if no peer accepts an AppendEntries without entries that ends
  before its log does: `RaftTheorems.DiskIsMemoryIff`.
* **Reads.** `Get` counts itself (`src/kvraft1/server.go:177`) and then sends itself to the queue
  (`src/kvraft1/server.go:179`); handlers run concurrently, so a Get can overtake another between the two. DoOp draws
  a new nonce (`src/kvraft1/server.go:80`) and then lowers the length (`src/kvraft1/server.go:82`), while the sync
  goroutine reads both without the lock (`src/kvraft1/server.go:260`, `src/kvraft1/server.go:243`). Either way a sync
  can release a Get that was called after the sync was sent, and that Get can be answered from a store older than a
  Put answered before: `AlrWitness.OvertakingBreaksLinearizability` and `AlrWitness.EarlyLengthBreaksLinearizability`
  are runs no order explains. Linearizability therefore assumes the *timeliness hypothesis* `AlrMachine.Timely`: on
  its way to the queue no Get overtakes one that was counted before the length for an outstanding sync was read, if it
  was counted after; and the length is not read between the new nonce and the subtraction. The first half follows from
  the simple discipline that Gets reach the queue in the order they were counted (`AlrPromises.FirstComeIsTimely`),
  and the whole is exact: `AlrTheorems.PromisesHoldIffTimely` shows that the Gets a sync was sent for are those it
  releases, throughout a run, if and only if the run is timely. The second race also drives the length below zero
  (`AlrWitness.EarlyLengthGoesNegative`); the length covers what the syncs will subtract, and so is never negative, if
  and only if it is not read in that gap, whoever overtakes whom (`AlrTheorems.LengthCoversIff`). Conservation of
  Gets, the absence of the panic, what a Get's value is and Submit soundness need no hypothesis.
* **Clerk.Put.** The comment at `src/kvraft1/client.go:62-71` promises that ErrVersion means "not performed". The flag
  that turns ErrVersion into ErrMaybe is set only after a whole pass over the servers (`src/kvraft1/client.go:116`),
  so the promise holds exactly when the very first RPC brought the answer: `KvClerk.ErrVersionMeansNotPerformedIff`.
  `KvWitness.UnansweredPutTakesEffect` is a timely run in which a Put takes effect unanswered and the next RPC of the
  same pass is refused, so that the Clerk returns ErrVersion; no order explains it.
* **Clerk histories.** The tester records when a Clerk operation returned (`src/kvtest1/porcupine.go:66-81`) and the
  model takes every ErrMaybe at a matching version for performed (`src/models1/kv.go:56-63`). A Put that timed out
  without reaching a server also returns ErrMaybe: `KvWitness.LostPutIsNotAccepted` is a timely run whose history that
  model rejects. `KvHistories.ExplainedIffAcceptable` says exactly which results the log explains: OK and every Get
  always; ErrVersion if no copy of the Put ever takes effect; ErrMaybe if a copy takes effect before the Clerk
  returns, or none ever does and the key had another version meanwhile. Histories of such results are linearizable:
  `KvHistories.ClerksLinearizable`. The log is not what clients see, so a history with another result may pass
  unnoticed: `KvWitness.UnnoticedLossPasses`.

## Model

| member | source | states |
|---|---|---|
| `RaftServer.Raft.constructor` | src/raft/raft.go:170-199 | a peer starts as a follower with nothing committed or applied, and with term, vote and log from the persister if it holds anything, else a lone term-0 sentinel |
| `RaftServer.Raft.Persist` | src/raft/persistence.go:16-24 | the disk gets exactly term, vote and log |
| `RaftServer.Raft.BecomeFollower` | src/raft/leader_election.go:152-157 | follower of the given term, vote cleared, written to disk, log untouched |
| `RaftServer.Raft.IsLogUpToDate` | src/raft/leader_election.go:40-53 | the election restriction, which RaftElections.FreshIsNotBehind identifies as a total order of logs |
| `RaftServer.Raft.StartElection` | src/raft/leader_election.go:62-79 | next term, own vote counted and on disk before the ballots go out; the ballots describe the end of the log |
| `RaftServer.Raft.RequestVote` | src/raft/leader_election.go:9-37 | vote and reply, including the reply's stale term after a term change |
| `RaftServer.Raft.CountVote` | src/raft/leader_election.go:101-125 | a granted vote of the running election counts once, a majority makes a leader, a later term a follower |
| `RaftServer.Raft.BecomeLeader` | src/raft/leader_election.go:131-149 | both index arrays after the loop, and the first broadcast |
| `RaftServer.Raft.SuffixFrom` | src/raft/log_replication.go:137-156 | the arguments for one peer: everything from nextIndex on, and the entry before it |
| `RaftServer.Raft.BroadcastAppendEntries` | src/raft/log_replication.go:187-220 | one message for every other peer, each cut at that peer's nextIndex; none unless leader |
| `RaftServer.Raft.Start` | src/raft/raft.go:38-57 | a leader appends the command at the end, persists and broadcasts; anyone else changes nothing |
| `RaftServer.Raft.FirstIndexOfTerm` | src/raft/util.go:21-28 | the scan finds the least index of the term, or -1 |
| `RaftServer.Raft.AdvanceCommitIndex` | src/raft/log_replication.go:163-183 | the two nested loops compute CommitFrom, and change nothing but commitIndex |
| `RaftServer.Raft.ReplicateReply` | src/raft/log_replication.go:98-160 | acknowledgement, commit, backing up and the retry, or stepping down; what these mean over runs is said by SuccessIsCounted, RetriesDescend and RaftTerms.StepHeeds |
| `RaftServer.Raft.ConflictStart` | src/raft/log_replication.go:48-54 | the backward scan stops at the first entry of the conflicting term's stretch |
| `RaftServer.Raft.AppendEntries` | src/raft/log_replication.go:10-84 | the follower's whole new state, the reply, and which commands are reported as aborted |
| `RaftServer.Raft.Accept` | src/raft/log_replication.go:59-80 | the log becomes the matched prefix plus the new entries, is persisted only if there are any, and the commit index follows the leader's within the log |
| `RaftServer.Raft.Truncate` | src/raft/log_replication.go:60-70 | every dropped command is reported, in order |
| `RaftServer.KeptOrAborted` | src/raft/log_replication.go:60-70 | whatever the truncation, every command of the old log is either kept or reported, in order, and none twice |
| `RaftServer.Raft.TakeBatch` | src/raft/raft.go:133-146 | the applier copies exactly the committed entries not yet applied |
| `RaftServer.Raft.DeliverNext` | src/raft/raft.go:149-157 | one entry is handed over with the index after lastApplied |
| `RaftSteps.StepKeeps` | src/raft/log_replication.go:10-220 | every event, on any network, keeps the invariant of peers, messages and history |
| `RaftSafetySteps.StepSafe` | src/raft/log_replication.go:10-220 | every in-order event keeps the invariant of acknowledged and committed entries |
| `RaftTheorems.ElectionSafety` | src/raft/leader_election.go:9-37 | over a whole run a term has at most one leader, in spite of cleared votes, crashes and repeated messages |
| `RaftWitness.VotesTwiceInOneTerm` | src/raft/log_replication.go:33-36 | a run in which one peer grants two different votes in one term |
| `RaftVotes.StepVotesOnce` | src/raft/leader_election.go:26-36 | where nobody has voted twice yet, one event lets a peer vote for a second candidate of a term if and only if it grants a vote to a peer's request in a term the voter stood in |
| `RaftTheorems.OneVotePerTermIff` | src/raft/log_replication.go:33-36 | every peer votes for one candidate per term throughout a run if and only if no peer grants a vote in a term it stood in |
| `RaftTheorems.OnlyStandersVoteTwice` | src/raft/log_replication.go:33-36 | in any run, whoever granted two different votes in a term stood in that term |
| `RaftElections.FreshIsNotBehind` | src/raft/leader_election.go:40-53 | a log is up to date for another if and only if it is not behind it by last term and then length; of two logs one always is, and both are only if they end alike |
| `RaftElections.SomeoneIsFreshest` | src/raft/leader_election.go:40-53 | among any peers there is one whose log is up to date for all of them |
| `RaftElections.VoteIsGrantedIff` | src/raft/leader_election.go:9-37 | in a run a ballot is answered once, and granted if and only if the voter's vote is free for the candidate and the log the candidate stood with is not behind the voter's; the voter's new term and vote are on disk by then |
| `RaftTerms.StepHeeds` | src/raft/log_replication.go:107-110 | in a run whoever gets a request of a later term, or a reply of a later term in its own election or reign, is a follower of that term at once, in memory and on disk, without a vote but one it just gave; otherwise only a timeout changes the term, by one |
| `RaftTerms.TermsNeverFall` | src/raft/persistence.go:16-45 | over a run a peer's term never falls, crashes included |
| `RaftTerms.DeposedAtOnce` | src/raft/leader_election.go:104-113 | a reply of a later term to a request of term t leaves its receiver beyond t or a follower in it, unless it is an answer to a ballot and its receiver leads t already, which then changes nothing |
| `RaftTerms.NeverLeadsAgain` | src/raft/log_replication.go:101-110 | but for that exception, who handled such a reply never leads t again in the run |
| `RaftTerms.OldLeaderLearns` | src/raft/log_replication.go:10-21 | once a peer of a later term has answered a leader's AppendEntries and the leader has handled the answer, it never leads that term again, and if it still led it is in the peer's term or beyond |
| `RaftTheorems.LeaderAppendOnly` | src/raft/raft.go:38-57 | while it leads a term a peer drops and replaces nothing |
| `RaftTheorems.LogMatching` | src/raft/log_replication.go:44-74 | two logs in memory or on disk, at any two moments of a run, agree up to any index where their terms agree |
| `RaftTheorems.MessageMatching` | src/raft/log_replication.go:136-158 | the same between a stored log and an AppendEntries in flight, at any two moments of a run |
| `RaftTheorems.LogShape` | src/raft/raft.go:181-182 | every stored log starts with the sentinel and has non-decreasing terms from 1 on |
| `RaftTheorems.LeaderIndices` | src/raft/leader_election.go:131-149 | a leader's nextIndex stays in 1..len(log) and matchIndex below len(log), so no log access is out of range |
| `RaftTheorems.CrashConsistency` | src/raft/persistence.go:16-45 | between critical sections disk and memory agree on term and vote, and the log in memory is a prefix of the one on disk |
| `RaftDisk.StepWritten` | src/raft/log_replication.go:60-74 | where disk and memory hold the same logs, one event leaves them equal if and only if it is not the acceptance of an AppendEntries that only truncates |
| `RaftTheorems.DiskIsMemoryIff` | src/raft/log_replication.go:60-74 | the log on disk is the log in memory, for every peer throughout a run, if and only if nobody accepts an AppendEntries without entries that ends before its log does |
| `RaftWitness.DiskOutlivesMemory` | src/raft/log_replication.go:60-74 | a run in which a peer's log on disk is longer than the one in memory |
| `RaftSteps.BackUpExact` | src/raft/log_replication.go:119-134 | whether or not the leader has entries of ConflictTerm, it resumes at the follower's ConflictIndex |
| `RaftTheorems.RetriesDescend` | src/raft/log_replication.go:119-158 | in a run a refused leader sends exactly one retry, at the follower's ConflictIndex, strictly lower and never below the sentinel, and keeps that place as nextIndex |
| `RaftBackup.RetreatIs` | src/raft/log_replication.go:38-57 | where exactly a refused leader resumes: at the end of a short log, or before the offending stretch |
| `RaftBackup.BackupTerminates` | src/raft/log_replication.go:119-158 | against a fixed follower log there are at most as many refusals as it has distinct terms, the sentinel's included |
| `RaftTheorems.BackupTerminatesInRun` | src/raft/log_replication.go:119-158 | the same for any leader and any peer of no later term in any reachable state |
| `RaftTheorems.SentWhole` | src/raft/log_replication.go:197-216 | every AppendEntries reaches to the end of the log its leader has when it sends it |
| `RaftProgress.EveryPeerIsSent` | src/raft/log_replication.go:187-220 | in a run a new leader, a heartbeat and Start send to every other peer a message that reaches the end of the leader's log and carries its term and commit index; a new leader's carries no entries |
| `RaftTheorems.SuccessCopiesLeader` | src/raft/log_replication.go:59-83 | whoever accepts it, however late, then has exactly that log |
| `RaftAcks.StepHonours` | src/raft/log_replication.go:59-83 | one event keeps all acknowledgements true if and only if it is in order |
| `RaftTheorems.AcknowledgementsHoldIffOrdered` | src/raft/log_replication.go:112-118 | acknowledgements stay true throughout a run if and only if the run is in order |
| `RaftTheorems.MatchIndexSound` | src/raft/log_replication.go:112-118 | in an in-order run matchIndex tells the truth: a follower still in the term holds the leader's prefix up to it |
| `RaftTheorems.CommitIsLargestMajority` | src/raft/log_replication.go:163-183 | the commit rule finds the largest index of the leader's own term that a majority holds, or changes nothing |
| `RaftProgress.SuccessIsCounted` | src/raft/log_replication.go:112-118 | in an in-order run a leader that hears of a success in its term knows the peer to hold all it sent, goes on from there, and has committed every index of its term that it knows a majority to hold; what it knows of others stays |
| `RaftTheorems.CommitAdvance` | src/raft/log_replication.go:76-80 | commit indices stay inside the log and never go back while a peer is up |
| `RaftSafety.Complete` | src/raft/leader_election.go:30-53 | a prefix that a majority acknowledged in its own term is part of the log every later leader starts with |
| `RaftTheorems.LeaderCompleteness` | src/raft/log_replication.go:163-183 | what a leader committed by counting is in the log of every leader of a later term, whenever either is observed |
| `RaftTheorems.StateMachineSafety` | src/raft/raft.go:132-158 | no two peers, in any of their lifetimes, deliver different entries at one index |
| `RaftWitness.SwappedMessagesBreakSafety` | src/raft/log_replication.go:60-70 | without the in-order hypothesis it fails: three peers, two swapped messages, two commands at index 1 |
| `RaftTheorems.Durability` | src/raft/log_replication.go:59-80 | a delivered entry is stored, in memory and on disk, by a majority in every later state |
| `RaftLedger.StepRefines` | src/raft/raft.go:132-158 | every in-order event is a move of one growing log with replicas that take from it in order |
| `RaftTheorems.RefinesReplicatedLog` | src/raft/raft.go:132-158 | hence so is every in-order run |
| `ReplicatedLog.TakenIsPrefix` | src/raft/raft.go:148-157 | along such moves a replica has taken the first commands of the log, in order |
| `RaftTheorems.DeliveredInOrder` | src/raft/raft.go:148-157 | in its present lifetime a peer delivered commands 1, 2, 3, ... of the committed log, without gap or repeat |
| `RaftTheorems.CommittedOnce` | src/raft/raft.go:46-51 | no command id occurs twice in the committed log |
| `RaftTheorems.CommittedWasStarted` | src/raft/raft.go:46-51 | every committed command was handed to Start earlier in the run |
| `RaftProgress.CatchesUp` | src/raft/log_replication.go:10-160 | a follower offered the leader's log from any index on has all of it, its commit index and the leader's acknowledgement after finitely many tries |
| `RaftProgress.CanElect` | src/raft/leader_election.go:9-149 | any majority of at least two peers can by itself elect one of its members, whatever the state |
| `RaftProgress.AlwaysRecoverable` | src/raft/raft.go:38-158 | from every state of an in-order run any majority of at least two peers can by itself, in order, elect a leader, replicate a new command and apply it on all its members, up to the end of one log |
| `RaftProgress.AloneNobodyLeads` | src/raft/leader_election.go:78-125 | a cluster of one never has a leader |
| `KvStore.ReplayConsistent` | src/kvraft1/server.go:106-120 | along any log the two maps have the same keys and versions are at least 1 |
| `KvStore.VersionCounts` | src/kvraft1/server.go:106-120 | a key's version is the number of Puts to it that went through |
| `KvStore.EffectiveOnce` | src/kvraft1/server.go:106-120 | of all Puts with one key and version at most one goes through |
| `KvStore.GetTellsAll` | src/kvraft1/server.go:52-58 | after any log a Get returns as version the number of Puts to the key that went through and as value that of the last of them, with OK if there is one and ErrNoKey if not |
| `KvStore.PutAfterGet` | src/kvraft1/server.go:106-121 | of all Puts exactly those with the version a Get returns go through, and the next Get returns their value and the next version; the others are refused and change nothing |
| `KvStore.UnlessOvertaken` | src/kvraft1/server.go:106-121 | a Put with the version a Get returned at an earlier place in the log goes through if and only if no other Put to the key went through in between |
| `KvModel.GroupByKey` | src/models1/kv.go:28-32 | the first loop gives each key exactly its operations, in order |
| `KvModel.SortKeys` | src/models1/kv.go:33-37 | every key once, ascending |
| `KvModel.Partition` | src/models1/kv.go:27-43 | one list per key, in ascending order of the keys, each with exactly that key's operations in order |
| `KvModel.StoreRefinesModel` | src/models1/kv.go:44-67 | for every log and key but "sync", store and model agree on value and version, and the model accepts every answer DoOp gave |
| `KvServer.KVServer.constructor` | src/kvraft1/server.go:226-233 | empty maps, empty queue, a fresh nonce |
| `KvServer.KVServer.DoGet` | src/kvraft1/server.go:52-58 | the store's answer, whose version, value and error KvStore.GetTellsAll gives in terms of the log |
| `KvServer.KVServer.DoPut` | src/kvraft1/server.go:106-121 | the conditional write and its answer |
| `KvServer.KVServer.DrawVersion` | src/kvraft1/server.go:264-268 | the nonce is replaced, by the sync goroutine as by the sync branch |
| `KvServer.KVServer.LowerLength` | src/kvraft1/server.go:82-82 | the length is lowered by the batch, nothing else changes |
| `KvServer.KVServer.ServeNext` | src/kvraft1/server.go:85-99 | one round of the loop: the first Get of the queue is answered from the store, or it waits, or it panics |
| `KvServer.KVServer.DoSync` | src/kvraft1/server.go:66-105 | with our address and nonce these steps in a row, otherwise nothing; KvRelease.SyncIsRelease relates it to the machine |
| `KvServer.KVServer.DoOp` | src/kvraft1/server.go:48-128 | the dispatch, with the whole new state |
| `KvServer.KVServer.GetCounts` | src/kvraft1/server.go:167-177 | the Get has a channel and is counted, but is not in the queue yet |
| `KvServer.KVServer.GetEnqueues` | src/kvraft1/server.go:178-179 | the Get is at the end of the queue |
| `KvServer.KVServer.GetReturns` | src/kvraft1/server.go:172-181 | the answer on the channel is returned and the channel removed |
| `KvServer.KVServer.ReadLength` | src/kvraft1/server.go:243-244 | the length as it is at that moment |
| `KvServer.KVServer.MakeSync` | src/kvraft1/server.go:246-247 | a sync with the length read before and the nonce of this moment |
| `KvServer.DrainReplies` | src/kvraft1/server.go:82-100 | the loop, uninterrupted, ends normally if and only if enough Gets are queued and each has its channel |
| `KvServer.DrainAnswers` | src/kvraft1/server.go:85-99 | each of the first Gets gets one answer, no other channel is touched |
| `KvServer.ExecuteFits` | src/kvraft1/server.go:106-122 | DoOp's reply is the store's answer, and it is what the reader posts |
| `KvServer.ServeFits` | src/kvraft1/server.go:85-99 | one round of the loop is the machine's Dequeue, with the same answer on the same channel |
| `KvServer.LeavingFits` | src/kvraft1/server.go:172-181 | a Get that takes its answer and removes its channel leaves the fields looking like the replica |
| `KvServer.DepartFits` | src/kvraft1/server.go:172-181 | so do any number of Gets leaving one after another |
| `KvServer.Simulates` | src/kvraft1/server.go:48-182 | event by event, the methods do to the fields what the machine does to the replica |
| `KvServer.SyncSimulates` | src/kvraft1/server.go:243-247 | the sync goroutine's two reads make the sync the machine sends, exactly when the machine can |
| `KvServer.ServerFollows` | src/kvraft1/server.go:48-272 | over every run, with Gets that were answered leaving at any moments, the fields the methods compute look like the machine's replica |
| `KvRelease.SyncIsRelease` | src/kvraft1/server.go:66-105 | DoOp on a sync that releases, with enough Gets queued, replies OK and leaves the fields of the replica the machine reaches by drawing the nonce, subtracting, answering the Gets one by one and ending; the waiting Submit gets that reply |
| `KvRelease.SyncWaits` | src/kvraft1/server.go:85-86 | with too few Gets queued both answer these and then wait for the next one |
| `KvRelease.SyncTwiceIsOnce` | src/kvraft1/server.go:77-104 | whatever a sync did, the same sync again changes nothing and is answered OK |
| `AlrSteps.StepKeeps` | src/kvraft1/server.go:48-272 | every event of servers, Submits, sync goroutines, clients and crashes, in any interleaving, keeps the invariant |
| `AlrPromises.StepKept` | src/kvraft1/server.go:77-100 | one event keeps every promise of the syncs if and only if it is timely |
| `AlrPromises.FirstComeIsTimely` | src/kvraft1/server.go:177-179 | Gets that reach the queue in the order they were counted overtake nobody |
| `AlrTheorems.PromisesHoldIffTimely` | src/kvraft1/server.go:77-100 | the Gets a sync was sent for are the ones it releases, throughout a run, if and only if the run is timely |
| `AlrTheorems.PromisedGetsCome` | src/kvraft1/server.go:82-86 | in a timely run a release that finds the queue empty waits for a Get already counted |
| `AlrPromises.StepCovered` | src/kvraft1/server.go:80-82 | one event keeps the length at or above what the running release and the outstanding sync will subtract if and only if it does not read the length between the new nonce and the subtraction |
| `AlrTheorems.LengthCoversIff` | src/kvraft1/server.go:80-82 | the same throughout a run, with Gets overtaking each other at will |
| `AlrTheorems.LengthNeverNegative` | src/kvraft1/server.go:80-82 | hence the length is not negative as long as it was never read in that gap |
| `AlrWitness.EarlyLengthGoesNegative` | src/kvraft1/server.go:80-82 | a run, with all Gets in order, in which the length becomes -1 after such a read |
| `AlrWitness.OvertakingBreaksLinearizability` | src/kvraft1/server.go:177-179 | a run in which a Get overtakes another and is answered from a store older than a Put answered before it: no order explains it |
| `AlrWitness.EarlyLengthBreaksLinearizability` | src/kvraft1/server.go:80-82 | the same with all Gets in order, when the length is read between the new nonce and the subtraction |
| `AlrTheorems.RealTime` | src/kvraft1/server.go:163-196 | with promises kept, an operation answered before another is called comes before it in the line |
| `AlrTheorems.LineIsSequential` | src/kvraft1/server.go:66-105 | in every interleaving, executing the line one by one gives every operation the answer it got, and the store of the log |
| `AlrTheorems.Linearizable` | src/kvraft1/server.go:163-196 | Puts at their own index and Gets at the sync entry that released them form a linearization, in every state of every timely run |
| `AlrTheorems.GetIsCurrent` | src/kvraft1/server.go:66-105 | a Get returns what the log up to its sync entry gives, on any replica: how many Puts to the key went through by then and the value of the last; in a timely run that entry was committed after the Get was called |
| `AlrTheorems.BatchConservation` | src/kvraft1/server.go:167-181 | in every interleaving the Gets counted are those on their way, queued and answered; they are answered in queue order, each once, and returned to clients in that order; the counter is their number less what the running release will take |
| `AlrTheorems.ReleaseNeverPanics` | src/kvraft1/server.go:86-92 | the Get at the head of the queue always has its channel |
| `AlrTheorems.DroppedNonceNeverReleases` | src/kvraft1/server.go:241-268 | over runs: a nonce a server dropped, by a release, an abandoned sync or a crash, never comes back to it, so no entry with it releases anything there again |
| `AlrTheorems.SpentReleasesNothing` | src/kvraft1/server.go:77-104 | a sync entry that released, and any copy of it, releases nothing again, anywhere |
| `AlrTheorems.OneLiveSync` | src/kvraft1/server.go:241-268 | a sync entry with a server's present nonce is the one its sync goroutine is waiting for |
| `AlrTheorems.ReplicasAgree` | src/kvraft1/server.go:106-122 | a store is the replay of what was applied, so servers at the same index have equal stores |
| `AlrTheorems.SubmitSound` | src/kvraft1/rsm/rsm.go:111-149 | over every run: OK means exactly one entry with the id is in the log, it is the submitted request, that server had applied it, and the reply is the store's at that index; else ErrWrongLeader |
| `AlrTheorems.PutAnswerSound` | src/kvraft1/server.go:184-196 | a Put RPC is answered what the store said at the one entry that carries its id, if its Submit returned OK, and ErrWrongLeader if not |
| `AlrSubmits.HandedOver` | src/kvraft1/rsm/rsm.go:76-98 | what the reader hands over, a reply or the news of an abort, reaches the Submit that waits for it |
| `AlrSubmits.SubmitComplete` | src/kvraft1/rsm/rsm.go:111-149 | over a run: a Submit the reader handed the reply to its entry returns it with OK if it still leads in the term of its Start, and ErrWrongLeader otherwise, as it does when the entry was aborted; an OK Put is what the client sees |
| `AlrSubmits.SubmitReturnsOnce` | src/kvraft1/rsm/rsm.go:111-149 | over a run no Submit returns twice, and none that has returned still waits |
| `AlrSubmits.StuckIff` | src/kvraft1/rsm/rsm.go:80-97 | handing over blocks the reader if and only if the Submit that is still registered for the id has received something already |
| `AlrSubmits.StuckForGood` | src/kvraft1/rsm/rsm.go:76-98 | over a run a blocked reader applies nothing more until its server restarts |
| `AlrTheorems.FollowsReplicatedLog` | src/kvraft1/rsm/rsm.go:76-98 | the service uses the log only as the replicated log allows |
| `Rsm.RSM.constructor` | src/kvraft1/rsm/rsm.go:63-70 | nobody waits |
| `Rsm.RSM.Register` | src/kvraft1/rsm/rsm.go:118-122 | the drawn id waits for its request |
| `Rsm.RSM.Started` | src/kvraft1/rsm/rsm.go:131-135 | not leader: ErrWrongLeader at once; else the term is remembered |
| `Rsm.RSM.ReadCommand` | src/kvraft1/rsm/rsm.go:78-86 | DoOp is applied and its reply goes to the Submit that waits for this id, if any, and to nobody else |
| `Rsm.RSM.ReadAborted` | src/kvraft1/rsm/rsm.go:90-97 | the Submit that waits for an aborted id is told so |
| `Rsm.RSM.Finish` | src/kvraft1/rsm/rsm.go:137-149 | OK if and only if a reply came, in the term Start saw, while still leader |
| `KvClerk.Clerk.constructor` | src/kvraft1/client.go:20-24 | the Clerk starts with the given server order |
| `KvClerk.Clerk.Put` | src/kvraft1/client.go:79-119 | the nested retry loops return the Verdict on the outcomes, and move the server whose turn it was to the front, or to the back after a time-out |
| `KvClerk.VerdictIs` | src/kvraft1/client.go:79-119 | from the outcomes alone: OK if and only if OK decides first, ErrVersion if and only if a refusal within the first pass does, ErrMaybe if and only if a time-out or a refusal in a later pass does, nothing yet if and only if nothing decides |
| `KvClerk.Clerk.MoveServerToFront` | src/kvraft1/client.go:121-130 | the server moves to the front, the others keep their order |
| `KvClerk.ToFrontIs` | src/kvraft1/client.go:121-130 | no server is lost or gained, the server comes first and every other keeps its order |
| `KvClerk.Clerk.MoveServerToBack` | src/kvraft1/client.go:132-141 | the server moves to the back, the others keep their order |
| `KvClerk.ToBackIs` | src/kvraft1/client.go:132-141 | no server is lost or gained, the server comes last and every other keeps its order |
| `KvClerk.ServiceExplains` | src/kvraft1/server.go:184-196 | a log without repeated ids and truthful answers explain what a Clerk saw; both hold of the whole system by KvSystem.SystemExplains |
| `KvClerk.CopiesTakeEffectOnce` | src/kvraft1/client.go:79-119 | of all copies of one Put that retries put into the log at most one takes effect |
| `KvClerk.OkMeansPerformedOnce` | src/kvraft1/client.go:98-99 | OK: exactly one Put with this key and version ever takes effect, and it is one of ours |
| `KvClerk.ErrVersionMeansNotPerformedIff` | src/kvraft1/client.go:100-105 | ErrVersion: surely not performed if and only if the very first RPC brought the answer; KvWitness.UnansweredPutTakesEffect is a run of the failing half |
| `KvClerk.ErrMaybeIsUndecided` | src/kvraft1/client.go:104-112 | ErrMaybe is only returned when both are possible |
| `KvClerk.SyncKeyIsInert` | src/kvraft1/server.go:66-68 | a Put to the reserved key never changes the store and is never refused for its version |
| `KvWitness.UnansweredPutTakesEffect` | src/kvraft1/client.go:100-116 | a timely run in which the first RPC's Put takes effect unanswered and the second RPC of the pass is refused: the Clerk returns ErrVersion for a Put that was performed, and the history has no linearization |
| `KvHistories.ExplainedIffAcceptable` | src/models1/kv.go:49-67 | a Clerk operation has a place between its call and its return that explains its result if and only if the result is acceptable: an ErrVersion whose Put never takes effect, an ErrMaybe that takes effect before the return or never while the key had another version, any OK and any Get |
| `KvHistories.FirstRefusalIsAcceptable` | src/kvraft1/client.go:100-102 | ErrVersion from the very first RPC is always acceptable |
| `KvHistories.RetriedIsAcceptableIff` | src/kvraft1/client.go:103-105 | ErrMaybe after a refused retry is acceptable if and only if no copy of the Put takes effect after the return |
| `KvHistories.RanIsConducted` | src/kvraft1/client.go:79-119 | an operation that sent Clerk.Put's RPCs, was answered by servers as scripted and returned Put's result is a Clerk operation of a history |
| `KvHistories.PutIsAcceptableIff` | src/kvraft1/client.go:93-116 | when what Clerk.Put returns is acceptable, by the RPC that decided: OK and a refusal of the first RPC always; a later refusal in the first pass if and only if no copy ever takes effect; one in a later pass if and only if none does after the return; a time-out by what became of the copies and the key's version |
| `KvHistories.AcceptableIsLinearizable` | src/kvtest1/porcupine.go:82-86 | if every result is acceptable, one order of all Clerk operations respects real time and is accepted by the model, key by key |
| `KvHistories.ClerksLinearizable` | src/kvtest1/porcupine.go:66-86 | so it is for the Clerk histories of every timely run |
| `KvWitness.LostPutIsNotAccepted` | src/kvraft1/client.go:109-112 | a timely run in which a Put times out unheard and returns ErrMaybe, and the model rejects the history |
| `KvWitness.UnnoticedLossPasses` | src/models1/kv.go:56-63 | a history whose only Put was lost, and is thus not acceptable, is linearizable all the same |
| `KvSystem.StepTogether` | src/kvraft1/server.go:218-275 | every step of servers and Raft peers keeps both invariants and both views of the log equal |
| `KvSystem.CommittedFacts` | src/raft/raft.go:46-51 | what Raft commits under the servers is what they submitted, each id once |
| `KvSystem.StoreIsReplay` | src/kvraft1/rsm/rsm.go:76-86 | a server has received what the Raft peer beside it delivered in its present lifetime, and its store is the replay of what it has applied of the committed log |
| `KvSystem.SystemLinearizable` | src/kvraft1/server.go:163-196 | in every run of the whole system, in order below and timely above, one sequential order explains everything clients were told |
| `KvSystem.SystemClerksLinearizable` | src/kvtest1/porcupine.go:66-86 | the Clerk histories of the whole system, with every result acceptable, are linearizable |
| `KvSystem.SystemSubmitSound` | src/kvraft1/rsm/rsm.go:111-149 | Submit soundness against the log the Raft peers committed, with Start and GetState answered by the peer beside the server |
| `KvSystem.SystemExplains` | src/kvraft1/client.go:79-119 | the whole system explains what a Clerk.Put saw, so what its results mean holds of the committed log |
| `KvSystem.StartIsNeverHeldBack` | src/kvraft1/rsm/rsm.go:131-132 | Raft's demand for new command ids never keeps a Submit from calling Start |

## Assumptions made explicit

* Lock-protected sections are atomic, and a crash falls between them. Steps of a goroutine that others can observe
  without the lock are events of their own: counting and queueing a Get, the new nonce, the subtraction, each dequeue,
  the sync goroutine's reads.
* A Get's call is recorded when it is counted, a Put's when it is submitted, and a Get's answer when it is dequeued.
  Calls are thus recorded no earlier and answers no later than they happen, which only makes real-time order harder to
  respect.
* Random request ids and sync nonces are fresh values.
* Integers do not overflow; in particular versions do not wrap at 2^64.
* Clocks and timeouts are events that may happen at any time.

## Left out

- Liveness, timers and back-off: only safety, termination of the backup conversation, and that Raft can always make progress, not that it will. In the progress results a leader that is in the way may restart; it does not time out.
- Blocking on channels as such: a step that would block is not enabled, a reader on a channel nobody reads any more stays stuck, and the class methods report it (`DoSync`, `ReadCommand`). Sending on applyCh while holding the lock is part of an atomic section.
- What an aborted message proves: truncation can abort an entry that is appended again later, so the model only says that the waiting Submit returns ErrWrongLeader.
- Snapshots: Raft's Snapshot is empty, the store's Snapshot and Restore only encode and decode the maps.
- The gob encoding and the simulated network: the disk holds a triple, the network a set of messages.
- The text of a sync Put ("server length"): it is a request of its own, with a non-negative length; a client's own Put to "sync" is modelled as a sync request with a foreign nonce, or as a Put without effect.
- Clerk.Get as a method: its retry loop returns the first answer it gets, which is what Clerk histories say of a Get.
- Clerk operations that never return: in a history such a Put is one that returned ErrMaybe at the last moment. Histories do not put to the reserved key "sync", and a linearization says nothing about that key.
- Concurrent use of one Clerk: Put is modelled with the server list of one caller.
- The tester, the benchmarks and the plotting scripts.
