# Proofs about a Raft key-value store and its linearizability checker

This project models in Dafny the replicated key-value store of this repository and proves what the
extended Raft paper ("In Search of an Understandable Consensus Algorithm", sections 5.2 to 5.4, 7 and 8)
promises for it, together with the checker that judges recorded client histories.

The model has six parts.

* **One node.** `CoreSteps` gives every handler of `RaftCore` as a function from a node's memory to its
  next memory and its reply. `RaftCore` is the same node as a class whose methods update fields in place
  and write every persistent field to a `Store`; each method is proved to compute its function, and to leave
  the storage equal to the memory or to say exactly when it does not and when `apply_committed_entries`
  panics. `Decisions` says of every handler, from its inputs alone, exactly when it grants a vote, wins,
  accepts a batch, commits, takes or installs a snapshot. `RaftNode` and `RaftServer` add the requests a node sends and the calls that wait for replies,
  `GapBatch` what one of those requests does to a peer that has fallen behind a snapshot.
* **The cluster.** `Cluster` is a transition system over any number of nodes. Requests and replies stay
  in the network for ever, so they may be lost, late, repeated and out of order; a node may crash at any
  point, also between two writes of one handler, and restarts from its disk. `History`, `HistorySteps`,
  `Invariant`, `VoteSteps` and `AppendSteps` hold the inductive invariant; `Safety`, `ReadIndex`,
  `CommitBound` and `Hints` the theorems about all runs. In that model every adopted term is saved and
  only a leader sends what it appended. `Disks` is the code's own cluster, where the disk may lag behind
  the memory and a deposed node may still send, and carries the theorems over to it under three guards;
  `Owing` says exactly what the second of them shuts out. `Counterexamples`, `TwoLeaders`,
  `LateReplication` and `StaleRead` are concrete runs of three nodes that show why each guard is needed.
  `Progress` is the other side of safety: from every reachable state the cluster can still elect a leader
  and commit any command.
* **The clients.** `Origins` traces every entry of a run to the one submission that made it, `LogOrder` turns
  a log into an order of operations, and `Clients` proves from both and from the safety theorems that what
  clients record of a run is linearizable, in the very sense that the checker decides. `RetriedWrite` is a
  run in which it is not, because a client repeats a write.
* **Snapshots.** `SnapshotLayer` and `SnapshotRuns` compare a node that compacts its log with one that
  keeps all of it, step by step through any run.
* **Storage.** `Storage` has the contract by entry index and the in-memory storage by position, `Mirror`
  what a batch does to the log in memory and on disk, `Crc` the checksum, `Checksummed` the line format,
  `FileStorage` the files.
* **The checker.** `Linearizability` says what a linearizable history is, `Checker` is the backtracking
  search for one key, `Locality` and `HistoryChecker` go from one key to the whole store.

## Where the code is narrower than its intent

Each of these is stated with a condition, and where it fails with an input that shows it.

* A follower bounds its commit index by its own last index instead of the last new entry. `BoundsAgreeIff`
  gives the exact condition under which the two agree; whole-suffix batches always meet it, the empty
  probes of `confirm_leadership` need not, and `ProbeBreaksSafety` is a run in which two nodes then apply
  different entries.
* A higher term found in a reply to a probe or a snapshot is not written to disk. `SecondVoteIff`: a node
  votes twice in one term across a restart exactly when its term on disk is below the one in memory.
  `TwoLeadersRun` has two leaders of one term for that reason, and `UnsavedTermBreaksSafety` goes on until
  both have applied different entries.
* A submitted entry is sent without looking at the role again. `LateReplicationBreaksSafety` is a run in
  which a deposed node overwrites a committed entry; `LateReplicationIff` says that such a message is true
  exactly if its node still leads.
* The safety theorems are proved for the model without these three (`Safety`) and, in `Disks`, for the code
  as it is in every run in which no node restarts while its disk lags, no deposed node sends what it
  appended and no harmful probe is delivered. Step by step each condition is exact (`TakeIsPerformIff`,
  `LateReplicationIff`, `BoundsAgreeIff`).
* A read takes `commit_index` as it is, even if entries of earlier terms are not committed yet. The read
  theorem asks that there are none (`OnlyOwnBeyond`, which a leader that has committed an entry of its own
  term meets, and the first leader of an empty cluster too); `StaleReadRun` is a run with such an entry
  that misses an acknowledged write.
* A client that tries a write again after an error may have it applied twice. `ClientsSeeOneStore` asks
  that no write is; `RetriedWriteBreaksHistory` is a run with one repeated write whose history has no
  linearization. A key with a space is cut there (`SetCutsKey`), so the theorem is about keys without.
* The log is cut in memory at `from_index - 1` whatever the snapshot offset, and on disk by index.
  `CutsAgreeIff` and `BatchMirrorIff` say exactly when memory and disk stay equal and the log numbered,
  `CutsApart` is an input where they do not, and the contract of `HandleAppendEntries` says exactly when
  the node stays valid. `CommitFallsBehind` is an input that leaves the commit index behind `last_applied`,
  `ClashCompactedAway` one on which a clash behind a snapshot goes into the next snapshot unseen.
* An installed snapshot keeps the rest of the log without comparing terms (`InstallKeepsRightLogIff`) and
  replaces the state machine even if it is older than what is applied (`OldInstallGoesBack`,
  `OldInstallLosesWrite`).
* Entries at or below the snapshot are not trimmed at start (`RestartIsRightIff`).
* Replication of a submitted entry does not look whether the peer needs a snapshot
  (`ReplicationHasNoGapIff`); heartbeats do (`HeartbeatHasNoGap`). A peer whose log ends before the leader's
  snapshot then stores the batch at too low positions (`GapMisplaces`), and `ReplicationPanicsIff` says
  exactly when it goes on to panic. In `FreshPeerPanics` a new peer first applies the third entry as its
  first.
* A leader does not find a conflicting term that only its snapshot covers (`SameLastOfTermIff`).
* Votes are only counted when a reply comes, so a cluster of one node never has a leader
  (`LoneNodeNeverLeads`); every larger one can always go on (`CanCommit`).
* The in-memory storage cuts by position (`TruncateByPositionIff`, `CompactByPositionIff`).
* The checksum says nothing of the pieces of a line that a damaged byte has split
  (`NewlineDamagePasses`); all other damage within four bytes is found (`DamagedFileBreaks`). Whether the
  pieces then load is up to the JSON codec, of which only the round trip is assumed here: for some codec
  with that property they do, as another entry (`NewlineDamageLoads`). Its texts are not JSON.

## Model

| member | source | states |
|---|---|---|
| Safety.StateMachineSafety | src/core/raft_core.rs:719-735 | in every run, whatever two nodes have applied, at any two times and across crashes, one applied log is a prefix of the other |
| Safety.ReplicasAgree | src/core/raft_core.rs:719-753 | in every run the state machine is the replay of the log up to `last_applied`, which equals `commit_index` and is within the log; nodes that applied equally much hold equal data |
| Safety.ElectionSafety | src/core/raft_core.rs:359-401 | at most one node is ever leader in a term, over all times of a run, even if nodes crash between the write of a term and of a vote |
| Safety.LogsMatch | src/core/raft_core.rs:431-494 | two logs, of any nodes at any times, with the same term at an index are equal up to that index |
| Safety.LogsWellFormed | src/core/raft_core.rs:660-709 | every log is numbered from 1 without gaps and its terms never fall |
| Safety.LeadersHoldCommitted | src/core/raft_core.rs:929-954 | what any node had committed is in the log of every leader of a later term, and of the same term from then on |
| Safety.MatchIndexIsTrue | src/core/raft_core.rs:890-900 | while a peer is in the leader's term its log agrees with the leader's up to the recorded match index |
| Safety.RunHistory | src/core/raft_core.rs:349-401 | one history of elections, votes and acknowledgements explains every state of a run of the model and keeps the cluster invariant |
| History.LeaderCompleteness | src/core/raft_core.rs:349-355 | an entry stored by a majority in its own term is in the log of every leader elected later, by the up-to-date check and meeting majorities |
| History.OneLeaderPerTerm | src/core/raft_core.rs:379-385 | two majorities of votes in one term name the same leader |
| History.CommittedAgree | src/core/raft_core.rs:929-954 | any two committed prefixes agree wherever both reach |
| History.LogMatching | src/core/raft_core.rs:434-473 | logs built from leaders' logs that share a term at an index share everything up to it |
| VoteSteps.ReceiveVoteReqOk | src/core/raft_core.rs:359-401 | answering a vote request, from any reachable state, keeps the cluster invariant |
| VoteSteps.ReceiveVoteRepOk | src/core/raft_core.rs:847-871 | counting a vote, and becoming leader with its no-op, keeps the cluster invariant |
| VoteSteps.TimeoutOk | src/core/raft_core.rs:637-657 | starting an election at any time keeps the cluster invariant |
| AppendSteps.ReceiveAppendReqOk | src/core/raft_core.rs:405-524 | a batch, late or repeated, leaves the cluster invariant; the reply says truly what is stored |
| AppendSteps.ReceiveAppendRepOk | src/core/raft_core.rs:877-957 | a reply, its match index and a commit by majority keep the cluster invariant |
| AppendSteps.MajorityChooses | src/core/raft_core.rs:936-954 | a majority count at an entry of the leader's own term makes the log up to it committed for good |
| AppendSteps.HeartbeatOk | src/core/raft_node.rs:177-236 | every heartbeat says the truth about the leader's log |
| AppendSteps.SubmitEntriesAreSuffix | src/core/raft_node.rs:102-108 | replication of a just submitted entry carries the same whole suffix as a heartbeat |
| ReadIndex.ReadsSeeAcknowledgedWrites | src/core/raft_server.rs:243-314 | a confirmed read on a leader with no entry of an earlier term left to commit answers from a state that includes everything any leader had applied before the read began |
| ReadIndex.CommittedOwnIsEnough | src/core/raft_core.rs:675-683 | in every run a leader that has committed an entry of its own term meets that condition |
| ReadIndex.LeaderLogGrows | src/core/raft_core.rs:694-709 | while a node leads a term its log only grows |
| ReadIndex.LeaderCommitGrows | src/core/raft_server.rs:247-253 | while a node leads a term its commit index never falls, and once it stops it never leads that term again |
| ReadIndex.AnsweredSince | src/core/raft_node.rs:364-380 | a probe answered during a read was answered by a peer that at its beginning had seen no higher term |
| StaleRead.StaleReadRun | src/core/raft_server.rs:247-253 | a run in which a confirmed read misses an acknowledged write because an entry of an earlier term is not committed yet |
| CommitBound.BoundsAgreeIff | src/core/raft_core.rs:449-457 | the code's commit bound and the intended one give the same node exactly when the leader's commit index is vouched for by the batch or the follower holds nothing beyond it |
| CommitBound.CarefulRunsAreRuns | src/core/raft_core.rs:449-457 | every run of the code's own bound in which no harmful probe is delivered is a run of the intended bound |
| Disks.SafeAsWritten | src/core/raft_core.rs:719-735 | state machine safety of the code as it is, in every run in which no node restarts while its disk lags, no deposed node sends what it appended and no harmful probe is delivered |
| Disks.ReplicasAgreeAsWritten | src/core/raft_core.rs:719-753 | under the same guards the code's state machines are replays of the applied logs, and equal where equally much is applied |
| Disks.OneLeaderAsWritten | src/core/raft_core.rs:359-401 | under the same guards the code has one leader per term, over all times and crashes |
| Disks.LogsMatchAsWritten | src/core/raft_core.rs:431-494 | under the same guards the code's logs match up to a shared term and index |
| Disks.LeadersHoldCommittedAsWritten | src/core/raft_core.rs:929-954 | under the same guards the code's leaders hold what was committed |
| Disks.MatchIndexIsTrueAsWritten | src/core/raft_core.rs:890-900 | under the same guards the code's match index is true |
| Disks.ReadsSeeWritesAsWritten | src/core/raft_server.rs:243-314 | under the same guards a confirmed read of the code, on a leader with no entry of an earlier term left to commit, includes everything any leader had applied before it began |
| Disks.TakeIsPerformIff | src/core/raft_node.rs:364-372 | a step of the code is the step of the model that saves every term exactly when it does not restart a node whose disk lags |
| Disks.GuardedRunsAreRuns | src/core/raft_node.rs:299-303 | every run of the code in which no node restarts while its disk lags and none sends after it was deposed is, without the disks, a run of the model |
| Disks.SourceRunsAreRuns | src/core/raft_core.rs:449-457 | with the third guard, of the model with the intended commit bound |
| Disks.TakeOk | src/core/raft_core.rs:243-264 | after every step of the code the log on disk is the log in memory and the term on disk is not ahead, with the vote if it is the same |
| Owing.LateReplicationIff | src/core/raft_node.rs:80-121 | after every guarded run of the code, what a node sends of an entry it appended is true of the leaders' logs exactly if it still leads |
| TwoLeaders.TwoLeadersRun | src/core/raft_node.rs:367-371 | a run of the code with two leaders of one term after a restart from a disk that lags, every other guard holding |
| TwoLeaders.UnsavedTermBreaksSafety | src/core/raft_node.rs:367-371 | its continuation, in which both have applied different entries of one term at one index |
| LateReplication.LateReplicationBreaksSafety | src/core/raft_node.rs:80-121 | a run of the code in which a deposed node sends its entry in the new term and a committed entry is lost, every other guard holding |
| Counterexamples.ProbeBreaksSafety | src/core/raft_node.rs:339-346 | a run of the code's own bound in which an empty probe makes two nodes apply different entries |
| Origins.OriginOf | src/core/raft_core.rs:694-709 | every entry that is not a no-op, in any log or message of a run, was appended by an earlier submission |
| Origins.SubmitsOnce | src/core/raft_core.rs:700-705 | no two submissions of a run get the same term and index |
| Origins.NotBeforeSubmission | src/core/raft_server.rs:214-226 | no log has an entry before it is submitted |
| Origins.ReadsSeeWhatAnyApplied | src/core/raft_server.rs:243-314 | a confirmed read sees whatever any node, leader or not, had applied before it began |
| LogOrder.PlacedIsLinearizable | chaos-test/src/checker.rs:62-66 | operations that a log places in real time, each write at its own entry and each read at a prefix whose replay it shows, are linearizable |
| Clients.ClientsSeeOneStore | src/api/client_http.rs:218-300 | every history that clients record of a run is linearizable, if reads begin at leaders with nothing of an earlier term left to commit and no write is applied twice; unanswered writes and repeated attempts included |
| Clients.ClientsSeeOneStoreAsWritten | src/api/client_http.rs:218-300 | the same for the code as it is, under the guards of Disks |
| RetriedWrite.RetriedWriteBreaksHistory | chaos-test/src/client.rs:223-276 | a run with one write applied twice whose recorded history has no linearization, every other condition holding |
| Progress.CanElect | src/core/raft_core.rs:637-684 | from every reachable state of at least two nodes a leader can be elected in a term above all others |
| Progress.CanCommit | src/core/raft_core.rs:877-957 | from every such state, and for every valid command, the run can go on until a leader has committed and applied its whole log with the command last, and every node holds that log |
| Progress.LoneNodeNeverLeads | src/core/raft_node.rs:64-74 | a cluster of one node never has a leader |
| Hints.ProbesConverge | src/core/raft_core.rs:901-922 | in every reachable state a leader finds the agreement with at most one rejection more than the follower's log has terms, each rejection lowers the next index and none passes the agreement |
| Hints.NeverOvershoots | src/core/raft_core.rs:307-343 | the next probe stays above any common prefix of the two logs and is strictly lower |
| Hints.FewRejections | src/core/raft_core.rs:433-470 | the bound on rejections for two logs that satisfy Log Matching |
| Hints.HandlersProbe | src/core/raft_core.rs:901-922 | the probing these lemmas speak of is what the two handlers do |
| Batch.StoreEntriesIsMerge | src/core/raft_core.rs:527-554 | storing a batch entry by entry is keeping the log if nothing clashes and else cutting it at the first clash |
| Batch.MergeHolds | src/core/raft_core.rs:527-554 | after a batch the log has the batch's terms in place and is unchanged before it |
| Batch.MergeAgain | src/core/raft_core.rs:527-554 | repeating a batch, or an earlier part of it, changes nothing |
| Batch.MergeKeepsTailIff | src/core/raft_core.rs:538-548 | a batch inside the log leaves it alone exactly when no term conflicts |
| Batch.MergeContiguous | src/core/raft_core.rs:534-536 | a batch that goes on from the log keeps the numbering |
| Applying.ApplyUpToReplays | src/core/raft_core.rs:721-735 | applying one entry after another is replaying the committed log |
| KvStore.ValidateIffAlwaysKnown | src/state_machine/kv.rs:65-78 | validation accepts exactly the commands that no state rejects as unknown |
| KvStore.SetStores | src/state_machine/kv.rs:86-92 | `SET` stores the value whole, spaces included |
| KvStore.SetCutsKey | src/api/client_http.rs:223 | a key with a space is cut at it, and its rest goes into the value |
| KvStore.OnlyDoneChanges | src/state_machine/kv.rs:80-102 | a command changes at most one key, and nothing unless it succeeds; it is unknown exactly if validation refuses it |
| KvStore.DeleteRemoves | src/state_machine/kv.rs:93-99 | `DELETE` removes exactly its key from any store and says whether it was there |
| KvStore.DeleteUndoesSet | src/state_machine/kv.rs:93-99 | `DELETE` after `SET` gives the store without the key, and not-found for an unknown key |
| KvStore.KeyValueStore.Apply | src/state_machine/kv.rs:80-102 | one command, in place, is the command function; unknown commands and missing keys change nothing |
| Decisions.UpToDateOrder | src/core/raft_core.rs:349-355 | of two logs one is up to date with the other, and both are only if they end alike |
| Decisions.VoteDecided | src/core/raft_core.rs:359-401 | a vote is granted exactly if the term is not old, the vote of the term free or the candidate's, and the candidate's last entry of a higher term, or of the same and no lower index; and the node afterwards |
| Decisions.VoteBetween | src/core/raft_node.rs:43-52 | when a candidate's own request gets the vote of a node, from the two nodes |
| Decisions.VoteCounted | src/core/raft_core.rs:847-871 | a candidate that hears of no higher term leads exactly if the votes with this reply are more than half of the cluster |
| Decisions.BatchDecided | src/core/raft_core.rs:405-524 | a batch is accepted exactly if its term is not old and the entry it names is there; a refusal changes at most term, vote and role |
| Decisions.HintDecided | src/core/raft_core.rs:436-494 | what a refusal hints at: the end of the log, the snapshot, or the first entry of the run of the conflicting term |
| Decisions.AcceptDecided | src/core/raft_core.rs:444-457 | an accepted batch is in the log, what is before it untouched, and the commit index follows the leader's as far as the log, or the batch, reaches |
| Decisions.HeartbeatCatchesUp | src/core/raft_core.rs:500-511 | a follower that accepts the leader's log from a common entry on has every term of it, and has applied what the leader has committed |
| Decisions.ReplyDecided | src/core/raft_core.rs:877-957 | an entry commits exactly if it is of the leader's term, not committed, and held by more than half of the cluster, the peer of this reply included; what is recorded, and that nothing else moves the commit index |
| Decisions.SearchDecided | src/core/raft_core.rs:327-343 | the search finds the last entry of a term, the snapshot that ends with it, or nothing exactly if there is neither |
| Decisions.RefusalDecided | src/core/raft_core.rs:901-922 | where the leader goes on after a refusal |
| Decisions.CommandDecided | src/core/raft_core.rs:694-709 | only a leader takes a command, which is then the last entry, of its term and the next index |
| Decisions.SnapshotDecided | src/core/raft_core.rs:757-808 | a snapshot can be taken exactly if something is applied that the last one does not cover, and what it leaves |
| Decisions.CompactionDecided | src/core/raft_core.rs:719-753 | everything committed is applied, and a snapshot taken exactly if that makes as many entries since the last as the threshold |
| Decisions.FewEntriesStay | src/core/raft_core.rs:741-743 | fewer entries than the threshold leave snapshot and log alone |
| Decisions.InstallDecided | src/core/raft_core.rs:557-634 | a snapshot is installed exactly if its term is not old and it reaches further than the node's own; the node afterwards in both cases |
| RaftCore.RaftCore.constructor | src/core/raft_core.rs:180-232 | a node starts as what its storage holds, with which it then agrees |
| RaftCore.RaftCore.HandleRequestVote | src/core/raft_core.rs:359-401 | the memory and the reply are those of the vote function; exactly the changed fields are written |
| RaftCore.RaftCore.StartElection | src/core/raft_core.rs:637-657 | a new term with a vote for itself, in memory and in storage |
| RaftCore.RaftCore.BecomeLeader | src/core/raft_core.rs:660-684 | leadership with fresh indexes for every peer and the no-op stored, before which the next indexes point |
| RaftCore.RaftCore.HandleRequestVoteResult | src/core/raft_core.rs:847-871 | one vote reply: step down, count once, win by majority |
| RaftCore.RaftCore.HandleAppendEntries | src/core/raft_core.rs:405-524 | for every batch without gaps in itself memory and reply, hints included, are those of the batch function; the panic is reached exactly if the batch begins past the end of the log and the commit index moves past the positions there are; storage mirrors memory and the indices are in order afterwards exactly if the batch was refused or it meets the log, clashes with nothing behind a snapshot and cuts nothing committed, and after a snapshot in the same call exactly if what that leaves is alike in both |
| RaftCore.RaftCore.ApplyEntries | src/core/raft_core.rs:527-554 | what the loop does to the log in memory and to the one in storage, for any batch |
| RaftCore.BatchSurvives | src/core/raft_core.rs:444-457 | for any batch without gaps in itself, exactly when storing it and moving the commit index leaves a valid node, and exactly when a committed entry then has no position |
| RaftCore.ClashCompactedAway | src/core/raft_core.rs:741-749 | a node behind a snapshot that a clashing batch leaves valid, with the old entry in its next snapshot |
| RaftCore.CommitFallsBehind | src/core/raft_core.rs:502-509 | a batch after which the commit index is behind `last_applied` |
| RaftCore.RaftCore.ApplyCommittedEntries | src/core/raft_core.rs:719-753 | from any indices, everything committed is applied in order with the results of the state machine, up to the panic, which is reached exactly if positions end before the commit index |
| RaftCore.RaftCore.TakeSnapshot | src/core/raft_core.rs:757-808 | compaction up to `last_applied`, or an error exactly where the function has none; the saved snapshot is the state machine's data |
| RaftCore.RaftCore.HandleInstallSnapshot | src/core/raft_core.rs:557-634 | an installed or refused snapshot, with storage mirroring memory afterwards |
| RaftCore.RaftCore.AppendLogEntry | src/core/raft_core.rs:694-709 | only a leader appends, and then the entry is last in memory and storage |
| RaftCore.RaftCore.HandleAppendEntriesResult | src/core/raft_core.rs:877-957 | the memory after a reply, which entry it committed and what applying answered |
| RaftCore.RaftCore.CountReplicated | src/core/raft_core.rs:936-942 | the loop counts the peers that hold the entry, and the leader |
| RaftCore.RaftCore.FindFirstIndexForTerm | src/core/raft_core.rs:309-323 | the backward scan finds the start of the run of a term |
| RaftCore.RaftCore.FindLastIndexForTerm | src/core/raft_core.rs:327-343 | the backward scan with its early stop finds the last index of a term |
| RaftCore.RaftCore.PersistTruncateLog | src/core/raft_core.rs:267-273 | what is cut in memory, by position, and in storage, by index |
| Mirror.CutsAgreeIff | src/core/raft_core.rs:267-273 | the cut in memory and the cut in storage leave the same log exactly when there is no snapshot or nothing is cut in memory |
| Mirror.CutsApart | src/core/raft_core.rs:267-273 | a log behind a snapshot on which they do not |
| Mirror.BatchMirrorIff | src/core/raft_core.rs:527-554 | a batch leaves storage and memory equal exactly when there is no snapshot or it clashes nowhere that the memory loses something, and the log numbered exactly when there is no snapshot or it does not clash |
| Mirror.BatchReach | src/core/raft_core.rs:527-554 | how long the log is after a batch that leaves it numbered |
| Mirror.GapAppends | src/core/raft_core.rs:527-554 | a batch that begins past the end of the log is put right behind it, in memory and in storage |
| RaftCore.NextIsThere | src/core/raft_core.rs:721-735 | one round of applying: the next entry is missing only where positions end before the commit index, and otherwise the rest is as before |
| RaftNode.WinnerHasMajority | src/core/raft_node.rs:43-75 | a node that wins has distinct votes of a majority, each its own or a granted reply |
| RaftNode.ElectionDecided | src/core/raft_node.rs:64-74 | a candidate wins exactly if some reply arrives before any of a higher term, and its votes with those granted by then are more than half of the cluster; failed requests are passed over |
| RaftNode.CandidacyDecided | src/core/raft_node.rs:36-75 | the same from the start of the election: a new term, the node's own vote and those granted |
| RaftNode.RequestVotes | src/core/raft_node.rs:65-74 | the loop counts as the function of which ElectionDecided says when it wins |
| RaftNode.HeartbeatHasNoGap | src/core/raft_node.rs:177-236 | a heartbeat names the true entry before its batch, which is all the rest of the log, with the leader's term and commit index, or it sends the snapshot exactly to a peer that needs it |
| RaftNode.FirstHeartbeat | src/core/raft_core.rs:667-683 | a new leader's first heartbeat carries its no-op right after the last entry it had |
| RaftNode.HeartbeatForEach | src/core/raft_node.rs:177-236 | every peer gets its request and nobody else gets one |
| RaftNode.ReplicationHasNoGapIff | src/core/raft_node.rs:84-119 | the batch of a submitted entry goes on from the entry it names exactly when the peer needs no compacted entry |
| GapBatch.ReplicationPanicsIff | src/core/raft_node.rs:80-121 | what replication sends to a peer that has the named entry leaves a gap exactly if the peer's log ends before the leader's snapshot, and makes it panic exactly if moreover the commit index moves past the positions there are |
| GapBatch.GapMisplaces | src/core/raft_core.rs:527-554 | in such a gap every entry of the batch gets a position below its index |
| GapBatch.LeaderArises | src/core/raft_core.rs:660-684 | how a leader with a snapshot and a silent peer comes about, handler by handler |
| GapBatch.FreshPeerPanics | src/core/raft_core.rs:721-735 | that leader's own request makes a new peer apply the third entry as its first and then panic |
| RaftNode.Heartbeats | src/core/raft_node.rs:173-248 | the requests the loop builds, none unless leader |
| RaftNode.Replications | src/core/raft_node.rs:80-121 | the requests the loop builds for one submitted entry |
| RaftServer.ReplicateDecided | src/core/raft_node.rs:132-148 | an entry of the leader's term is answered exactly if some reply arrives before any of a higher term, and the peers that hold it by then are with the leader more than half of the cluster |
| RaftServer.SubmitAnswers | src/core/raft_server.rs:214-239 | a submitted command is answered exactly when a majority confirms it in time, which is exactly when the leader has committed and applied it, with what the state machine says to it after the whole log before it |
| RaftServer.ReplicateAnswers | src/core/raft_node.rs:132-148 | the same for the reply loop, snapshots on or off |
| RaftServer.ReplyTracks | src/core/raft_core.rs:877-957 | a reply keeps a compacting node in step with the whole log and commits the asked entry or nothing |
| RaftServer.HandleSubmit | src/core/raft_server.rs:214-239 | who is refused and why, and that a command is answered exactly if the node leads, the command is valid and a majority confirms it in time |
| RaftServer.ConfirmLeadership | src/core/raft_node.rs:318-384 | the count is that of distinct peers that answered positively; leadership is lost exactly if a reply of a higher term arrives before a majority, whose term is then adopted in memory only |
| RaftServer.HandleReadIndex | src/core/raft_server.rs:243-314 | on a leader an index is answered exactly if a majority confirms before any reply of a higher term and the read index is applied; not-leader exactly if such a reply comes first; else a timeout |
| RaftServer.SecondVoteIff | src/core/raft_core.rs:359-401 | for any memory and disk that differ at most in term and vote: after a granted vote and a restart another candidate of the same term is granted one exactly when the first vote did not raise the term and the term on disk was below the one in memory |
| SnapshotLayer.SameLookups | src/core/raft_core.rs:275-305 | lookups through the offset are those of the whole log |
| SnapshotLayer.SameVotes | src/core/raft_core.rs:349-355 | votes are answered as by the node with the whole log |
| SnapshotLayer.SameCheck | src/core/raft_core.rs:431-473 | the entry check accepts exactly what the whole log accepts, except inside the snapshot |
| SnapshotLayer.InsideSnapshotRejected | src/core/raft_core.rs:487-494 | a batch that starts inside the snapshot is turned away with a hint at the first entry held |
| SnapshotLayer.StoreRefines | src/core/raft_core.rs:527-554 | with the cut at the right place, storing a batch in the rest of the log is storing it in the whole log |
| SnapshotLayer.CutIsRightIff | src/core/raft_core.rs:267-273 | the code's cut is right exactly when there is no snapshot or the batch clashes with nothing |
| SnapshotRuns.SnapshotRunsRefine | src/core/raft_core.rs:557-634 | through any guarded run of elections, votes, commands, replies, batches, compactions, installed snapshots and restarts the node, with the code's cut or the right one, mirrors the one with the whole log, and its state machine is that log's replay |
| SnapshotRuns.CountedMirrors | src/core/raft_core.rs:847-871 | a candidate with a snapshot counts votes and becomes leader as one with the whole log |
| SnapshotRuns.RepliedMirrors | src/core/raft_core.rs:877-957 | a leader with a snapshot records, probes, commits and applies as one with the whole log |
| SnapshotRuns.SameLastOfTermIff | src/core/raft_core.rs:327-343 | the leader's search for a conflicting term finds what it would find in the whole log exactly unless the term is only inside the snapshot |
| SnapshotRuns.AppendMirrors | src/core/raft_core.rs:405-524 | with the code's cut, and no clash behind a snapshot, as with the right cut, a batch keeps the mirror and is accepted alike; one that starts inside the snapshot is turned away |
| SnapshotRuns.GapBreaksMirror | src/core/raft_core.rs:527-554 | an accepted batch that begins past the end of the log leaves what is the rest of no log, unless a snapshot is taken in the same call |
| SnapshotRuns.FreshMirrors | src/core/raft_core.rs:180-232 | a node that starts without a snapshot is where such runs begin |
| SnapshotRuns.CompactRefines | src/core/raft_core.rs:757-808 | a compaction changes nothing of the whole log |
| SnapshotRuns.InstallMirrors | src/core/raft_core.rs:557-634 | a snapshot of the sender's log makes the node one that holds that log |
| SnapshotRuns.InstallKeepsRightLogIff | src/core/raft_core.rs:616-618 | the kept rest is right exactly when the old log does not go on past the snapshot or has its term there |
| SnapshotRuns.OldInstallGoesBack | src/core/raft_core.rs:606-629 | an installed snapshot leaves the state machine right for every log that goes on from it exactly when it is not older than what is applied |
| SnapshotRuns.OldInstallLoses | src/core/raft_core.rs:606-629 | for every older snapshot a log and a node that it puts back |
| SnapshotRuns.OldInstallLosesWrite | src/core/raft_core.rs:606-629 | a concrete node that loses an applied write that way |
| SnapshotRuns.RestartMirrors | src/core/raft_core.rs:180-232 | restoring the snapshot and starting again is replaying the log up to it |
| SnapshotRuns.RestartIsRightIff | src/core/raft_core.rs:189-210 | a restart between snapshot and compaction reads the log right exactly when nothing was left to drop |
| SnapshotRuns.SourceHandlerIsRight | src/core/raft_core.rs:405-524 | the code's batch handler is the one with the right cut whenever there is no snapshot or the batch clashes with nothing |
| Storage.TruncateByPositionIff | src/storage/memory.rs:68-82 | cutting by position meets the contract exactly in these cases |
| Storage.CompactByPositionIff | src/storage/memory.rs:84-104 | dropping by position meets the contract exactly in these cases |
| Storage.MemoryStorage.TruncateLog | src/storage/memory.rs:68-82 | the in-memory cut, and that it meets the contract on a log that starts at index 1 |
| Storage.MemoryStorage.CompactLog | src/storage/memory.rs:84-104 | the in-memory compaction, and that it meets the contract on a log that starts at index 1 |
| Storage.EntriesBelowKeeps | src/storage/traits.rs:62-65 | cutting keeps exactly the entries below the index |
| Storage.EntriesFromKeeps | src/storage/traits.rs:67-70 | compacting keeps exactly the entries from the index on |
| Storage.CutsKeepNumbering | src/storage/traits.rs:58-70 | cutting at an index and appending it, and compacting, keep the numbering |
| Storage.EntriesBelowIsSlice | src/storage/traits.rs:62-65 | on a numbered log the contract's filter is a prefix |
| Crc.ComputeCrc32 | src/storage/file.rs:19-32 | the nested loops compute the checksum function |
| Crc.KnownValues | src/storage/file.rs:19-32 | entries 1 and 128 of the table of RFC 1952 section 8, and two known checksums |
| Crc.BurstDetected | src/storage/file.rs:19-32 | two texts of any equal length that differ only within four consecutive bytes have different checksums |
| Crc.ShiftsLinear | src/storage/file.rs:23-29 | the bit step, repeated, is linear over exclusive or |
| Crc.ShiftsInjective | src/storage/file.rs:23-29 | the bit step, repeated, is injective |
| Crc.FeedWord | src/storage/file.rs:21-30 | up to four bytes act as one word mixed in at once |
| Crc.TableStep | src/storage/file.rs:21-30 | the loop agrees with the table form of RFC 1952 section 8 |
| Checksummed.LineRoundTrip | src/storage/file.rs:187-215 | a printed line reads back, whatever spaces the data has |
| Checksummed.AcceptedIff | src/storage/file.rs:92-116 | a line is accepted exactly when it is data, a space and a number equal to its checksum |
| Checksummed.BurstRefused | src/storage/file.rs:107-114 | a line whose data was damaged within four bytes is refused |
| Checksummed.ReadBackIff | src/storage/file.rs:65-117 | a small file gives back what was written exactly when the data is not empty and does not start with white space |
| Checksummed.FileDecided | src/storage/file.rs:80-117 | when a small file holds nothing, what can be read from it, and when it is damaged |
| Checksummed.DamagedFileRefused | src/storage/file.rs:80-117 | a small file damaged within four bytes of its data is refused, if it does not then begin with white space |
| Checksummed.OnlyDigitsRead | src/storage/file.rs:101-103 | a checksum is read only from digits, after at most one plus sign |
| Checksummed.HexIsLower | src/storage/file.rs:67 | a checksum is printed in eight lower-case digits |
| Checksummed.HexBack | src/storage/file.rs:67-103 | the hexadecimal digits of a word parse back to it |
| FileStorage.LogFileRoundTrip | src/storage/file.rs:171-294 | after any run of appends, truncations and compactions the file loads as exactly the log they denote |
| FileStorage.DamagedFileBreaks | src/storage/file.rs:171-228 | a log file damaged within four bytes of an entry's text, by anything but a line end, never loads |
| FileStorage.NewlineDamagePasses | src/storage/file.rs:181-215 | a damaged line whose pieces, split by a line end, pass the checksum |
| FileStorage.NewlineDamageLoads | src/storage/file.rs:171-228 | a codec that reads back what it prints, under which a file damaged so loads as another entry |
| FileStorage.NumbersReadBack | src/storage/file.rs:137-169 | terms and votes read back from their files |
| FileStorage.NumberDecided | src/storage/file.rs:137-161 | exactly which texts are read as numbers and votes |
| FileStorage.FileStorage.LoadLog | src/storage/file.rs:171-228 | the line loop decodes any file, and of a valid one gives the stored log |
| FileStorage.FileStorage.AppendLogEntries | src/storage/file.rs:230-250 | appended lines are the log with the entries appended |
| FileStorage.FileStorage.TruncateLog | src/storage/file.rs:252-272 | the rewritten file holds the entries below the index |
| FileStorage.FileStorage.CompactLog | src/storage/file.rs:274-294 | the rewritten file holds the entries from the index on |
| FileStorage.FileStorage.LoadTerm | src/storage/file.rs:137-144 | the stored term, 0 if none was saved, an error if the file is damaged or holds no number |
| FileStorage.FileStorage.LoadVotedFor | src/storage/file.rs:150-161 | the stored vote, none if none was saved, an error if the file is damaged or holds no vote |
| FileStorage.FileStorage.LoadSnapshot | src/storage/file.rs:296-306 | the stored snapshot, none if none was saved, an error if the file is damaged or holds no snapshot |
| Linearizability.LinearizationIffFits | chaos-test/src/checker.rs:244-261 | the order the search builds from the front, with its frontier, is a linearization, and the other way round |
| Linearizability.RealTimeIffPoints | chaos-test/src/history.rs:112-116 | an order respects real time exactly when each operation can take effect at a point within its interval, one after another |
| Linearizability.CutMeetsDeadlines | chaos-test/src/checker.rs:186-210 | a witness with open-ended writes, cut after the last confirmed operation, meets the latest completion time |
| Linearizability.DeadlinesOnlyRestrict | chaos-test/src/checker.rs:186-210 | an order accepted with deadlines is accepted without |
| Checker.ExtensionDecides | chaos-test/src/checker.rs:186-222 | ending indeterminate writes at the latest completion time accepts exactly the same histories |
| Checker.Search | chaos-test/src/checker.rs:253-356 | the backtracking search finds an order that completes the history if there is one, adds its ids to the list, and otherwise leaves the list as it was |
| Checker.CollectCandidates | chaos-test/src/checker.rs:266-286 | the candidates are exactly the operations that neither the deadline nor the frontier excludes |
| Checker.FitsStartsWithCandidate | chaos-test/src/checker.rs:266-290 | whatever completes the history starts with a candidate |
| Checker.SortInOrder | chaos-test/src/checker.rs:292-302 | candidates are tried by invocation, writes before reads |
| Checker.SortKeeps | chaos-test/src/checker.rs:292-302 | sorting loses no candidate and adds none |
| Checker.UnwrittenReadRejects | chaos-test/src/checker.rs:139-165 | a history with a read of a value nobody wrote is not linearizable |
| Checker.StaleReadRejects | chaos-test/src/checker.rs:167-184 | a history with a missing read after a confirmed write ended is not linearizable |
| Checker.FastReject | chaos-test/src/checker.rs:139-184 | the two quick checks reject exactly the histories with a read of an unwritten value or of nothing after a confirmed write, and never a linearizable one |
| Checker.SearchFromStart | chaos-test/src/checker.rs:212-242 | the search from the start decides linearizability and returns a witness's ids |
| Checker.CheckSingleKey | chaos-test/src/checker.rs:131-242 | yes exactly when the key's history is linearizable, with the ids of a witness |
| Locality.LinearizableIffEachKey | chaos-test/src/checker.rs:71-118 | the whole history has one linearization exactly when every key's part has one |
| Locality.StoreLegalIffEachKey | chaos-test/src/checker.rs:62-66 | a store goes through an order exactly when each register goes through its part |
| Locality.MergeTimed | chaos-test/src/checker.rs:71-118 | merging two orders by earliest point keeps the real-time order of both |
| HistoryChecker.KeyCheckDecides | chaos-test/src/checker.rs:81-96 | checking the filtered operations of a key is checking that key's part of the history |
| HistoryChecker.CheckKey | chaos-test/src/checker.rs:80-115 | the body of the loop decides one key and returns the ids of its witness |
| HistoryChecker.Check | chaos-test/src/checker.rs:71-118 | yes exactly when all operations on all keys have one linearization; the ids are those of one witness for each key, one after another |

## Left out

- RaftCore.RaftCore.HandleAppendEntries: requires that the batch has no gap in itself; every sender filters a range out of its own numbered log. Where it begins is free.
- RaftCore.RaftCore.HandleInstallSnapshot: says nothing about how the snapshot's data relates to what is applied; `SnapshotRuns.OldInstallGoesBack` does.
- HistoryChecker.Check: the returned ids are a concatenation per key and not one order, as in the code.
- RaftServer.HandleReadIndex: the wait for a lagging state machine is a single look, since nothing else moves the node during the call in this part of the model.
- RaftServer.HandleSubmit: the reply loop runs without other requests in between; the cluster model has every interleaving of single steps.
- Progress.CanCommit: of the model in which every adopted term is saved, with snapshots switched off; it says that a continuation exists, in which nothing more is lost, not that the network brings it about.
- Safety.StateMachineSafety: of the model in which every adopted term is saved, only leaders send and the commit bound is the intended one, with snapshots switched off; `Disks.SafeAsWritten` is the theorem of the code.
- Safety.ReplicasAgree: of the same model; `Disks.ReplicasAgreeAsWritten` is the theorem of the code.
- Safety.ElectionSafety: of the same model; `Disks.OneLeaderAsWritten` is the theorem of the code.
- Safety.LogsMatch: of the same model; `Disks.LogsMatchAsWritten` is the theorem of the code.
- Safety.LeadersHoldCommitted: of the same model; `Disks.LeadersHoldCommittedAsWritten` is the theorem of the code.
- Safety.MatchIndexIsTrue: of the same model; `Disks.MatchIndexIsTrueAsWritten` is the theorem of the code.
- Safety.RunHistory: of the same model; `Disks.SourceRunsAreRuns` brings the code's guarded runs into it.
- AppendSteps.ReceiveAppendReqOk: for the intended commit bound; `CommitBound.BoundsAgreeIff` compares it with the code's.
- CommitBound.CarefulRunsAreRuns: of the model that saves terms; `Disks.SourceRunsAreRuns` is the same for the code.
- ReadIndex.ReadsSeeAcknowledgedWrites: of the same model, and an acknowledged write is one its leader has applied; that `handle_submit` acknowledges no other is `RaftServer.SubmitAnswers`, on one node. The condition on the leader's log can be checked before the read and is enough; that every read without it is wrong is not claimed. `Disks.ReadsSeeWritesAsWritten` is the theorem of the code.
- Disks.SafeAsWritten: the guards are conditions on the steps of a run and not on one call; that each is needed is shown by a run, and that a run which breaks one is unsafe is not claimed. Snapshots are switched off.
- Clients.ClientsSeeOneStore: histories of writes and reads, as the chaos client records them; every command of the run is one of them, so deletions and raw commands are not in it, and keys have no spaces. Times are positions in the run. Of the model in which every adopted term is saved; `Clients.ClientsSeeOneStoreAsWritten` is the theorem of the code.
- Clients.ClientsSeeOneStoreAsWritten: under the guards of `Disks.SafeAsWritten`, with snapshots switched off. That no write is applied twice is a condition on the run that a client can only ensure by not repeating a write whose outcome it does not know.
- SnapshotRuns.SnapshotRunsRefine: the guards of each event are in `Guard`: batches that begin no later than the log ends (`GapBreaksMirror` says what others do), and batches and snapshots that contradict nothing applied; with the code's cut no batch that clashes behind a snapshot; and no rejection that makes a leader look for a term it has only inside its snapshot, where it probes elsewhere than a leader with the whole log (and then sends the snapshot).
- SnapshotRuns.InstallMirrors: for snapshots not older than what is applied and a kept rest that agrees; `OldInstallGoesBack` and `InstallKeepsRightLogIff` say exactly what happens otherwise.
- SnapshotRuns.RepliedMirrors: except for rejections with a term that is only inside the snapshot (`SameLastOfTermIff`).
- FileStorage.DamagedFileBreaks: not for damage that writes a line end; `NewlineDamagePasses` is an input that passes the checksum.
- Checksummed.ReadBackIff: white space is ASCII white space; texts are bytes, and that they are valid UTF-8 is not modelled.
- FileStorage.LogFileRoundTrip: JSON is a pair of functions assumed to read back what they print on one line; each save is whole and succeeds, so torn writes and I/O errors are not modelled.
- Replies that reach another call than the one that asked: each call's futures are local to it and the server runs one operation at a time, so the cluster lets a reply arrive only in the term of its call.
- Snapshots sent between nodes of the cluster models; of a refused one only the term it carries is there.
- Time: timeouts, heartbeat intervals, `last_heartbeat`; an election may start at any moment; that the cluster can go on is proved (`Progress`), that it does within some time is not claimed.
- Locks, channels and futures: each locked section is one atomic step.
- HTTP and in-memory transports, the client API beyond the commands and reads it passes on, the server binary, the chaos runner.
- Overflow of 64-bit terms, indices and timestamps; these are naturals.
- Leader hints, error texts and printing.
- `overlaps` and `sorted_by_invoke_time` of the history, which the checker does not use.
- `get`, `all` and the JSON form of the store's snapshot.
