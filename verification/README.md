# Verified models of Raft and the services built on it

Dafny models of the hard parts of this repository, each proved against what the code,
its comments and its tests promise. `dafny verify dfyconfig.toml` checks everything.

**Raft** (`Raft*.dfy`). `RaftServer` gives every critical section of `raft.go` as a function on
the fields of a peer, `RaftNode` is the peer as a class whose methods and loops are proved to do
that to its fields. `RaftCluster` puts peers, a network that loses, delays, duplicates and
reorders messages, and the services into one transition system; each section under the mutex is
one step. Beside the real state a cluster carries the untrimmed logs and the history of votes,
reigns and acknowledgements. `RaftCore` proves the protocol on untrimmed logs (Figures 2 and 3 and
sections 5.2 to 5.4 of the extended Raft paper by Ongaro and Ousterhout), `RaftCompaction`,
`RaftSteps` and `RaftLogSteps` carry it over to the trimmed logs of the code, `RaftTheorems` states
the results for whole runs, `RaftDuties` says exactly when each handler acts and
what it answers, in terms of full logs and votes, and `RaftBackup` bounds the fast log backup. Messages wait between a
peer and its service (`RaftService`) and may overtake each other; `RaftOvertaking` is a run where
that does harm. `RaftStarted` shows that nothing is invented, and `RaftKv` puts the key/value
service on top.

**Porcupine** (`Bitset`, `EntryList`, `Linearizability`, `Trail`, `Porcupine`, `Exploration`,
`Checker`, `Entries`, `KvModel`, `KvMeaning`, `CheckOperations`). The backtracking checker with its linked list,
bitset, hash-bucketed memo table and undo stack decides linearizability, and the partial
linearizations it records are the longest. Partitioning a key/value history by key is justified,
and so is collecting the verdicts of the parts; what the key/value model accepts is described
without its step function.

**Shard migration** (`ShardServer`, `ShardNode`, `ShardMigration`, `ShardSteps`, `ShardTheorems`,
`ShardHandover`, `ShardLoss`). A group is its committed log folded by the apply functions. A question and its
answer may come from any past state of the groups, so pulls, installs and deletes may be stale or
repeated.

**Clients** (`ClientHistory`, `KvClients`, `ShardClients`). Requests with the steps of their call
and return, over whole runs of the replicated and of the sharded store. What clients see is
linearizable in the sense the checker decides.

**Shard controller** (`Counts`, `Assignment`, `Rebalancing`, `ShardCtrler`, `CtrlerTheorems`),
**replicated key/value service** (`KvReplica`, `KvTheorems`) and **MapReduce** (`MapReduce`,
`MrWorker`, `MrCoordinator`, `MrTheorems`). `Counting` holds facts about finite sets and
maps, `Strings` the alphabetic order, `Common` what several models share.

## Hypotheses

- Raft: the code releases the lock before it sends to the service (`src/raft/raft.go:454-458` and
  `743-746`), so a command may overtake a snapshot. All results about logs hold whatever the order
  of arrival. What services have applied, and what snapshots contain, is proved for runs in which
  messages arrive in the order they were made; `ArrivalIff` is the exact condition for one more
  arrival and `OvertakenSnapshotIsLost` a run that breaks it.
- Raft: the service calls Snapshot only with an index it has applied. `SnapshotWithinApplied` and
  `EarlySnapshotStalls` say what happens otherwise.
- Raft: the snapshot of a service is the history of commands it stands for.
- Porcupine: every operation is called once, returns once and is not called after it returned.
- Shard migration: group ids are not 0, configurations are numbered without gaps, and a shard that
  has an owner never loses it (`ConfigsOk`). `FeedsGroups` shows when the controller guarantees
  this. Without the last condition a shard taken from group 0 may lack writes (`UnassignedIsLost`),
  and two groups may serve one shard at the same time (`TwoServers`). `RightlyServed` gives the
  condition under which all is well, shard by shard, and `FromNobody` says when it breaks at once.
- Exactly-once: one client id and sequence number stands for one request.
- Client histories: a client has one request at a time, numbers its requests increasingly, and
  nothing is logged or executed that was not asked before.
- Key/value service: Raft delivers the entry after the one the state stands for, or one that is
  ignored; snapshots and restarts come at any time. `RaftKv` derives this from Raft runs whose
  messages arrive in order and whose services save the state they have just reached.
- MapReduce: map and reduce are functions, reduce does not depend on the order of values
  (`OrderFreeIff`), there is at least one reduce task (`NoReduceTasks`), and a file is replaced in
  one step.

Where comments and code differ the model follows the code. A list node is a call when its match
is not nil, the opposite of `src/porcupine/checker.go:64`. "Moving as few shards as possible"
(`src/shardctrler/server.go:189-190`) holds for the loads the code picks; `FewestIff` says when it
holds over all balanced assignments.

## Model

| member | source | states |
|---|---|---|
| RaftTheorems.StateMachineSafety | src/raft/raft.go:302-385 | State Machine Safety: two servers, at any two moments of any run, agree on every entry of their full logs up to the smaller commit index, across loss, reordering, crashes and snapshots |
| RaftTheorems.LeadersHoldCommitted | src/raft/raft.go:518-580 | Leader Completeness: whatever any server has committed, at any moment of the run in a lower term or up to now in the same term, is in the log of a leader |
| RaftTheorems.ElectionSafety | src/raft/raft.go:234-258 | two leaders of one term, at any two moments of a run with crashes, are the same server |
| RaftTheorems.LogMatching | src/raft/raft.go:344-377 | full logs with the same term at an index are identical up to it, and terms never decrease along a log |
| RaftTheorems.StoredLogMatching | src/raft/raft.go:113-125 | the same for the entries the peers store after trimming |
| RaftTheorems.CommittedLater | src/raft/raft.go:711-728 | a prefix a server has committed is still committed in every later state of the run |
| RaftTheorems.ServicesAgree | src/raft/raft.go:731-754 | if messages reach the services in the order they were made, however late: of any two services at any two moments one has applied a prefix of what the other has, by commands, snapshots or a restart, and none is ahead of its peer |
| RaftTheorems.ArrivalIff | src/raft/raft.go:454-458 | after any run in order, any waiting message arriving next leaves its service standing for a prefix of the log if and only if it is refused, is a snapshot, or is the command that comes next |
| RaftService.DeliverIff | src/kvraft/server.go:148-206 | the same for any service that stands for a prefix of a log and any message of that log |
| RaftOvertaking.OvertakenSnapshotIsLost | src/raft/raft.go:454-458 | a run in which a command overtakes a pending snapshot that a second request has confirmed: nothing is under way any more, and neither of two services has applied a prefix of the other |
| RaftTheorems.OrderKnown | src/raft/raft.go:731-754 | the flag the order-dependent invariants hang on is set exactly in the runs whose messages arrived in order |
| RaftTheorems.TrimmedLogStandsForFull | src/raft/raft.go:85-125 | in every reachable state the stored log is the end of the full log, lastIncludedIndex <= lastApplied <= commitIndex <= lastLogIndex, and the disk holds term, vote and log; the snapshot is the history before the stored log as long as messages arrived in order |
| RaftTheorems.SendsInRange | src/raft/raft.go:606-655 | a leader can build a request for any peer at any time: every termAt and slice it uses is in bounds |
| RaftTheorems.ReceivesInRange | src/raft/raft.go:657-707 | every message ever sent can be handled in every later state without indexing outside the peer tables |
| RaftTheorems.FollowerCommitRule | src/raft/raft.go:379-383 | a follower that takes min(LeaderCommit, its own last index) commits exactly up to min(LeaderCommit, index of the last new entry), because requests carry the leader's whole suffix |
| RaftTheorems.SnapshotWithinApplied | src/raft/raft.go:197-217 | Snapshot keeps lastIncludedIndex <= lastApplied if and only if the index is applied already or the call is ignored |
| RaftTheorems.EarlySnapshotStalls | src/raft/raft.go:731-754 | a snapshot of a committed but unapplied index stops an applier that could go on |
| RaftTheorems.RunInv | src/raft/raft.go:302-459 | the cluster invariant (full-log protocol safety, every server, every message in flight) holds in every state of every run |
| RaftTheorems.StepInv | src/raft/raft.go:234-754 | every atomic step keeps the cluster invariant and only lets the vote, reign and acknowledgement history grow |
| RaftTheorems.InitInv | src/raft/raft.go:771-793 | it holds when all peers have just been made |
| RaftTheorems.RunGrows | src/raft/raft.go:467-472 | between any two states of a run terms, votes, reigns and acknowledgements only grow |
| RaftDuties.VoteIff | src/raft/raft.go:234-258 | in every run a vote request is granted if and only if its term is not older than the voter's, the voter has no ballot for another candidate in that term, and the candidate's last entry is at least as up-to-date as that of the voter's full log; the reply carries the larger term, a higher term makes a follower, and term and vote are on disk |
| RaftDuties.TimeoutStands | src/raft/raft.go:518-535 | a timeout raises the term by one, gives the candidate its own vote alone, saves both, and asks every other peer with the last index and term of the full log |
| RaftDuties.ElectionIff | src/raft/raft.go:546-580 | a candidate that gets a reply of its term takes office if and only if the vote is granted and its voters are now a majority; next indices start after the full log and match indices at 0 |
| RaftDuties.RequestIs | src/raft/raft.go:606-655 | a request to a peer carries the full log from its next index on, or the snapshot if and only if that index is trimmed |
| RaftDuties.AcceptIff | src/raft/raft.go:302-385 | in every run an append request succeeds if and only if its term is not older, its entries reach beyond the snapshot and the full log has the entry before them; the reply carries the larger term, a term not older makes a follower, and a rejection leaves the log alone |
| RaftDuties.HintIs | src/raft/raft.go:345-361 | a rejection names the index after the snapshot if the request starts before it, the end of a shorter log, or the term and the first index of the conflicting run of entries in the full log |
| RaftDuties.CommitIff | src/raft/raft.go:657-728 | after a successful reply commitIndex is unchanged or is a higher index of the current term that a majority is known to hold, and no index above it is one |
| RaftDuties.SnapshotIff | src/raft/raft.go:197-217 | a local snapshot is stored if and only if it is newer than the stored one and committed |
| RaftDuties.InstallIff | src/raft/raft.go:405-459 | a snapshot is installed and handed on if and only if its term is not older and it is newer than the stored one; commit and apply index then reach it, and the disk holds it |
| RaftDuties.SnapshotReplyIs | src/raft/raft.go:629-640 | match and next index of the peer go on behind the snapshot and never back |
| RaftDuties.StepsDownIff | src/raft/raft.go:546-554 | a reply is ignored unless term and role are still those of its request; otherwise a higher term in it ends the candidacy or the reign, in memory and on disk, and a term not higher does not |
| RaftDuties.ApplyIff | src/raft/raft.go:731-749 | the applier goes on if and only if something is committed and not applied, with the next entry of the full log |
| RaftCore.BumpSafe | src/raft/raft.go:467-472 | seeing a higher term keeps the protocol invariant on full logs |
| RaftCore.StandSafe | src/raft/raft.go:518-523 | so does standing for election |
| RaftCore.VoteSafe | src/raft/raft.go:249-257 | so does a vote given after the up-to-date check |
| RaftCore.ElectSafe | src/raft/raft.go:556-580 | so does taking office on a majority of votes |
| RaftCore.ExtendSafe | src/raft/raft.go:478-491 | so does a leader appending a command of its own term |
| RaftCore.AcceptSafe | src/raft/raft.go:344-377 | so does a follower taking over the leader's log up to the request's last entry, and it then agrees with the leader up to there |
| RaftCore.ReorderSafe | src/raft/raft.go:454-458 | the protocol does not depend on the order in which services get their messages |
| RaftCore.OneReignPerTerm | src/raft/raft.go:249-257 | votes of two majorities in one term cannot elect two candidates |
| RaftCore.CandidateHas | src/raft/raft.go:270-277 | a candidate at least as up-to-date as a voter holds every entry the voter holds that may still be chosen |
| RaftCore.ElectedHas | src/raft/raft.go:546-580 | a new leader holds every entry of an earlier term that may still be chosen |
| RaftCore.ChoosableShrinks | src/raft/raft.go:711-728 | what may still be chosen only becomes less as a run goes on |
| RaftCore.LeaderCompleteness | src/raft/raft.go:711-728 | whatever is committed by term u is in the log of every leader of term u or later |
| RaftCore.CommittedAgree | src/raft/raft.go:711-728 | two committed prefixes agree as far as both reach |
| RaftCore.SameTermSamePrefix | src/raft/raft.go:344-377 | two logs with equal terms at an index are equal up to it |
| RaftTypes.QuorumsMeet | src/raft/raft.go:557-557 | two majorities of the peers share a server |
| RaftCompaction.AppendRefines | src/raft/raft.go:323-377 | AppendEntries on the trimmed log, clamped to the snapshot or not, is adoption of the leader's log on the full log |
| RaftCompaction.MergeShift | src/raft/raft.go:363-377 | merging entries into the trimmed log at a slot is merging them into the full log at the index of that slot |
| RaftCompaction.MergeAdopts | src/raft/raft.go:363-377 | under Log Matching the truncate-and-append loop leaves the old log if it already agrees and otherwise the leader's log up to the last new entry |
| RaftCompaction.HintInRange | src/raft/raft.go:345-361 | the conflict hint of a rejection is at least 1 and at most one past the end of the leader's log |
| RaftLogSteps.SnapshotRefines | src/raft/raft.go:426-446 | installing a snapshot on the trimmed log is adoption of the leader's log up to the snapshot index on the full log |
| RaftLogSteps.TakeSnapshotRefines | src/raft/raft.go:197-217 | trimming for a local snapshot leaves the full log the stored one stands for unchanged |
| RaftLogSteps.CountedIsChosen | src/raft/raft.go:711-728 | an entry of the current term that the leader counts on a majority is chosen |
| RaftLogSteps.BackUpInRange | src/raft/raft.go:683-706 | after a rejection nextIndex stays within 1 and the end of the leader's log plus one |
| RaftSteps.TimeoutStep | src/raft/raft.go:503-545 | an election timeout keeps the cluster invariant |
| RaftSteps.VoteReqStep | src/raft/raft.go:234-258 | a vote request keeps the cluster invariant |
| RaftSteps.VoteRepStep | src/raft/raft.go:546-560 | a vote reply keeps the cluster invariant |
| RaftLogSteps.StartStep | src/raft/raft.go:478-491 | a client command keeps the cluster invariant |
| RaftLogSteps.ReplicateStep | src/raft/raft.go:606-655 | sending a request keeps the cluster invariant |
| RaftLogSteps.AppReqStep | src/raft/raft.go:302-385 | an append request keeps the cluster invariant |
| RaftLogSteps.AppRepStep | src/raft/raft.go:663-707 | an append reply, including the commit decision keeps the cluster invariant |
| RaftLogSteps.SnapReqStep | src/raft/raft.go:405-459 | an install-snapshot request, which makes a message for the service, keeps the cluster invariant |
| RaftLogSteps.SnapRepStep | src/raft/raft.go:629-640 | an install-snapshot reply keeps the cluster invariant |
| RaftLogSteps.SnapshotStep | src/raft/raft.go:197-217 | a local snapshot keeps the cluster invariant |
| RaftLogSteps.ApplyStep | src/raft/raft.go:731-754 | making the message for the next committed entry keeps the cluster invariant |
| RaftLogSteps.ReceiveStep | src/raft/raft.go:454-458 | the arrival of any message that waits for its service keeps the cluster invariant |
| RaftLogSteps.RestartStep | src/raft/raft.go:164-191 | a crash, which loses waiting messages, and a restart from disk keeps the cluster invariant |
| RaftBackup.BackUpLowers | src/raft/raft.go:683-706 | each rejection strictly lowers nextIndex: to the end of a shorter follower log, to the start of its conflicting term, or to an index that is then accepted |
| RaftBackup.RejectionLowers | src/raft/raft.go:683-706 | in every run, if a peer that has not trimmed its log rejects the request for its present next index, the leader lowers that index, to the end of a shorter log, and changes nothing else |
| RaftBackup.RejectionsBounded | src/raft/raft.go:345-361 | rejections before success are at most the number of distinct terms in an untrimmed follower's log plus one (term 0 of the sentinel is the plus one) |
| RaftBackup.RejectionsBoundedInRuns | src/raft/raft.go:663-707 | the bound holds between any server and any such follower of a reachable state |
| RaftBackup.RejectionsInside | src/raft/raft.go:345-361 | inside the follower's log each rejection uses up one of its terms |
| RaftNode.Raft.constructor | src/raft/raft.go:771-793 | Make with readPersist starts from exactly what is on disk |
| RaftNode.Raft.HandleRequestVote | src/raft/raft.go:234-258 | the new fields and the reply are those of RaftServer.RequestVote, which RaftDuties.VoteIff characterises |
| RaftNode.Raft.RunElection | src/raft/raft.go:518-535 | the new fields are those of RaftServer.StartElection and the request carries the last index and term |
| RaftNode.Raft.HandleVoteReply | src/raft/raft.go:546-560 | the new fields are those of RaftServer.VoteReply |
| RaftNode.Raft.TakeOffice | src/raft/raft.go:567-580 | leader tables start at last index plus one and at 0 |
| RaftNode.Raft.StartCommand | src/raft/raft.go:478-491 | a leader appends and persists, others change nothing |
| RaftNode.Raft.HandleAppendEntries | src/raft/raft.go:302-385 | fields and reply are those of RaftServer.AppendEntries, with clamping, conflict hints and the commit rule |
| RaftNode.Raft.FindFirstOfTerm | src/raft/raft.go:354-359 | the backwards scan finds the first entry of the conflicting term |
| RaftNode.Raft.AppendNew | src/raft/raft.go:363-376 | the loop over the entries truncates at the first conflict and appends the rest |
| RaftNode.Raft.ReplicateTo | src/raft/raft.go:606-655 | the request carries the entries from nextIndex on, or the snapshot |
| RaftNode.Raft.HandleAppendReply | src/raft/raft.go:657-707 | match and next index, commit and backup are those of RaftServer.AppendReplied |
| RaftNode.Raft.FindLastOfTerm | src/raft/raft.go:690-697 | the backwards scan finds the last entry of a term after the snapshot |
| RaftNode.Raft.CountHolders | src/raft/raft.go:716-721 | the count is the number of peers whose matchIndex reaches n, and the leader |
| RaftNode.Raft.Advance | src/raft/raft.go:711-728 | commitIndex becomes the highest index of the current term held by a majority, or stays if none is higher; RaftDuties.CommitIff says so of the full logs of every run |
| RaftNode.Raft.Trim | src/raft/raft.go:197-217 | Snapshot drops what the snapshot covers |
| RaftNode.Raft.CutLog | src/raft/raft.go:426-437 | the tail after a matching covered entry is kept, otherwise the log starts afresh |
| RaftNode.Raft.Adopt | src/raft/raft.go:426-446 | log, snapshot, commit and apply indices and disk after an installed snapshot |
| RaftNode.Raft.HandleInstallSnapshot | src/raft/raft.go:405-459 | fields, reply and message to the service are those of RaftServer.InstallSnapshot |
| RaftNode.Raft.HandleSnapshotReply | src/raft/raft.go:629-640 | match and next index move up to the snapshot |
| RaftNode.Raft.ApplyOne | src/raft/raft.go:731-749 | the message for the next committed entry is made if the loop guard holds, and nothing happens otherwise; that the check of lines 738-741 never fires after the guard is proved |
| RaftNode.Raft.Save | src/raft/raft.go:159-161 | the disk holds term, vote, log and snapshot position |
| RaftNode.Raft.StepDown | src/raft/raft.go:467-472 | a new term clears the vote and is persisted |
| Checker.CheckSingle | src/porcupine/checker.go:179-253 | terminates on every well-formed history and returns true if and only if some order of all operations is legal for Step and respects real time; every recorded list is a legal partial linearization that contains its operation, a complete one on success, and the longest there is whenever partial lists are computed or the search succeeds |
| Checker.OnCall | src/porcupine/checker.go:194-213 | trying a call keeps list, stack, bitset, state and memo describing the same search, and either remembers a new (bitset, state) pair or moves one entry on |
| Checker.OnReturn | src/porcupine/checker.go:214-242 | backtracking does the same and gives up only a branch that no linearization continues |
| Checker.RecordPartial | src/porcupine/checker.go:218-234 | longest[id] becomes the stack for exactly those operations on it for which nothing as long was known, and stays for all others |
| Checker.MakeLinkedEntries | src/porcupine/checker.go:121-138 | the list holds one node per entry in order, linked both ways, with every call knowing its return |
| Checker.TakeOut | src/porcupine/checker.go:203-207 | after lift the list is the history without the calls on the stack and their returns |
| Checker.PutBack | src/porcupine/checker.go:235-241 | after unlift it is the list before that call was taken |
| Exploration.FailedLongest | src/porcupine/checker.go:218-234 | when a search that records partial linearizations has failed, no partial linearization that contains an operation is longer than the one recorded for it |
| Exploration.PartialSeen | src/porcupine/checker.go:196-210 | if everything the search gave up is closed under legal next operations, it has seen every pair of operations and state that any partial linearization reaches, in spite of the memo |
| Exploration.PopExplored | src/porcupine/checker.go:214-242 | giving up a call leaves its pair closed and recorded |
| EntryList.Lift | src/porcupine/checker.go:159-167 | the call and its return leave the list and remember their neighbours |
| EntryList.Unlift | src/porcupine/checker.go:169-177 | relinking the last lifted call and return restores exactly the list before |
| EntryList.InsertBefore | src/porcupine/checker.go:70-81 | the new node comes directly before the mark |
| EntryList.Length | src/porcupine/checker.go:83-90 | the number of nodes from the root |
| Trail.PushOk | src/porcupine/checker.go:196-207 | taking a legal call extends the search state by one correct level |
| Trail.PopOk | src/porcupine/checker.go:235-241 | if the top of the stack leads nowhere, popping it leaves a correct state with that call tried |
| Trail.ReturnIsDead | src/porcupine/checker.go:214-217 | when the search stands at a return, no completion continues the stack |
| Trail.CallEligible | src/porcupine/checker.go:194-197 | a call the search stands at may come next: every operation before it in real time is linearized |
| Trail.TrailIsPartial | src/porcupine/checker.go:218-234 | the stack is always a legal partial linearization |
| Trail.NothingLeft | src/porcupine/checker.go:190-190 | an empty list means the stack is a complete linearization |
| Porcupine.CacheContains | src/porcupine/checker.go:145-152 | the hash-bucketed lookup finds an entry if and only if the pair was remembered |
| Porcupine.AddHolds | src/porcupine/checker.go:201-202 | adding to a bucket remembers exactly one more pair |
| Porcupine.SeenAgainIsDead | src/porcupine/checker.go:199-210 | a remembered (bitset, state) pair met again has no completion, so the memo prunes no needed branch |
| Porcupine.WordsMembers | src/porcupine/checker.go:198-205 | the bitset of the stack stands for the set of its operations |
| Porcupine.PairInUniverse | src/porcupine/checker.go:198-202 | every pair of bitset and state the search is ever at lies in one finite set, which bounds it |
| Linearizability.AllTriedIsDead | src/porcupine/checker.go:190-243 | if every operation that may come next leads nowhere, nothing completes the history |
| Linearizability.FullPartial | src/porcupine/checker.go:244-252 | a partial linearization of all operations is a linearization |
| Entries.MakeEntries | src/porcupine/checker.go:48-60 | the entries are the calls and returns of the operations sorted by time, calls before returns at equal times |
| Entries.HistoryFaithful | src/porcupine/checker.go:39-60 | the sorted entry list is well-formed and linearizable if and only if the operations with their times are |
| Bitset.SetAdds | src/porcupine/bitset.go:29-33 | set adds exactly its position to the set |
| Bitset.ClearRemoves | src/porcupine/bitset.go:35-39 | clear removes exactly its position |
| Bitset.EqualIffSameMembers | src/porcupine/bitset.go:62-72 | bitsets of equal length are equal if and only if they stand for the same set |
| Bitset.PopCountIsSize | src/porcupine/bitset.go:46-52 | popcnt is the size of the set |
| Bitset.PopCountOf | src/porcupine/bitset.go:46-52 | the loop over the words computes the size of the set |
| Bitset.EmptyHasNone | src/porcupine/bitset.go:10-17 | a new bitset stands for the empty set |
| Bitset.NewBitset | src/porcupine/bitset.go:10-17 | the slice has as many zero words as the positions need |
| Bitset.Clone | src/porcupine/bitset.go:19-23 | the copy is fresh and equal |
| Bitset.SetBitAt | src/porcupine/bitset.go:29-33 | the slice is updated in place as Set says |
| Bitset.ClearBitAt | src/porcupine/bitset.go:35-39 | the slice is updated in place as Clear says |
| Bitset.HashOf | src/porcupine/bitset.go:54-60 | the low 64 bits of the population count xored with all words |
| Bitset.Equals | src/porcupine/bitset.go:62-72 | true if and only if lengths and sets are equal |
| KvModel.Locality | src/models/kv.go:17-57 | a multi-key history is linearizable against the whole map if and only if for every key its operations are linearizable against the single-string model |
| KvModel.PartitionContract | src/porcupine/model.go:28-32 | the contract the library asks of Partition, for the sub-histories it really returns |
| KvModel.MergeKeys | src/models/kv.go:35-57 | per-key linearizations always merge into one of all keys that respects real time |
| KvModel.WholeGivesKeys | src/models/kv.go:35-57 | a linearization of the whole map restricts to one of each key |
| KvMeaning.KeyRuns | src/models/kv.go:35-57 | operations on one key can run in an order if and only if every get, and every append that returns something, returns what the key holds: the last put before it and the appends since |
| KvMeaning.StoreRuns | src/models/kv.go:35-57 | the same for the whole store and any keys |
| KvMeaning.SequentialIff | src/models/kv.go:35-57 | a history in which no two operations overlap is linearizable if and only if that holds in the order of the calls |
| KvMeaning.HasCallOrder | src/models/kv.go:35-57 | every such history has an order of its calls |
| CheckOperations.Partition | src/models/kv.go:18-34 | the parts are the sub-histories of the keys that occur, each in order, the parts in increasing order of their keys |
| CheckOperations.SortedKeys | src/models/kv.go:24-29 | the keys in increasing order, whatever the order of the walk |
| CheckOperations.CheckParts | src/porcupine/checker.go:281-287 | one right verdict per part, in any order of arrival |
| CheckOperations.Collect | src/porcupine/checker.go:288-352 | the loop ends if and only if there is a result or a timeout; Illegal means that a result seen is false, Ok that all results were seen and there is one, and all are true |
| CheckOperations.SomeFails | src/porcupine/checker.go:274-287 | some part has verdict false if and only if the history is not linearizable, and there are no parts if and only if it is empty |
| CheckOperations.CheckOperations | src/porcupine/checker.go:365-373 | without a timeout a history that is not empty gives Ok if it is linearizable against the whole store and Illegal if not, and the empty history never gives a result; with a timeout Ok and Illegal are still right and a result always comes; if no two operations overlap, Ok without a timeout means that every get and every append that returns something returns what its key holds, in call order |
| ShardTheorems.OneServer | src/shardkv/server.go:132-138 | in every reachable state at most one group serves a shard |
| ShardTheorems.ServedIsTruth | src/shardkv/server.go:219-339 | the served copy equals the fold of all client mutations that took effect on the shard so far, in any group, under stale and repeated pulls, installs and deletes |
| ShardTheorems.GetReadsTruth | src/shardkv/server.go:219-237 | an answered Get returns what that fold holds |
| ShardTheorems.AtMostOnce | src/shardkv/server.go:239-249 | a client's (id, seq) mutation takes effect at most once over all groups and configurations |
| ShardTheorems.AnsweredIsApplied | src/shardkv/server.go:239-249 | a mutation answered OK while it is its client's latest has taken effect |
| ShardTheorems.RunOnce | src/shardkv/server.go:313-319 | in every reachable state every number in every dedup table, past or present, was really applied, although whole tables are max-merged |
| ShardTheorems.RunInv | src/shardkv/server.go:219-339 | the migration invariant holds in every state of every run |
| ShardLoss.RightlyServed | src/shardkv/server.go:281-288 | whatever the controller does: as long as a shard is taken from group 0 only when nobody has written to it and no other group is still on its way to a configuration in which it owns the shard, at most one group serves it, and with all its writes |
| ShardLoss.FromNobody | src/shardkv/server.go:281-288 | in every run over any numbered configurations a group that gets a shard from group 0 serves it at once, and then one server with all writes is kept if and only if nobody wrote to the shard before and no other group serves it |
| ShardLoss.TwoServers | src/shardkv/server.go:281-288 | a run over configurations the controller makes in which an old owner lags behind: two groups serve one shard, and one of them lacks a write |
| ShardLoss.StuckForEver | src/shardkv/server.go:254-267 | a group whose shard goes to group 0 never leaves its configuration and never serves the shard again |
| ShardSteps.FirstIsRightful | src/shardkv/server.go:281-288 | where an owned shard stays owned, every take from group 0 meets that condition |
| ShardSteps.StepShard | src/shardkv/server.go:219-339 | every step keeps the invariant of each shard, unless it takes the shard from group 0 against that condition |
| ShardMigration.UnownedTruth | src/shardkv/server.go:281-288 | the fold of a shard is empty if and only if nobody ever wrote to it |
| ShardLoss.UnassignedIsLost | src/shardkv/server.go:281-288 | a run over configurations the controller makes (join 1, leave 1, join 2) in which group 2 serves a shard without a write that took effect in group 1 |
| ShardLoss.ControllerRun | src/shardctrler/server.go:145-179 | the controller does make these configurations |
| ShardSteps.ClientStep | src/shardkv/server.go:219-250 | a client operation keeps the invariant of each shard |
| ShardSteps.ConfigStep | src/shardkv/server.go:254-294 | a configuration change keeps it |
| ShardSteps.InstallStep | src/shardkv/server.go:297-320 | an install of pulled shards keeps it, however old the question and whichever replica state answered |
| ShardSteps.DeleteStep | src/shardkv/server.go:324-339 | a deletion keeps it, in the new and in the old owner |
| ShardSteps.PulledFromHolder | src/shardkv/server.go:522-550 | what a group pulls for the current configuration is the previous owner's final copy |
| ShardServer.MergeDedup | src/shardkv/server.go:313-319 | the merged table knows the clients of both, each with the larger of its numbers |
| ShardNode.JoinDedup | src/shardkv/server.go:313-319 | the loop keeps the larger number of each client |
| ShardNode.ShardKV.constructor | src/shardkv/server.go:593-612 | no shards, no configuration |
| ShardNode.ShardKV.HandleClientOp | src/shardkv/server.go:219-250 | state and reply are those of ShardServer.ApplyClientOp |
| ShardNode.ShardKV.HandleConfig | src/shardkv/server.go:254-294 | the loop over the shards turns the state into ShardServer.ApplyConfig |
| ShardNode.ShardKV.IsSettled | src/shardkv/server.go:258-263 | true if and only if every shard is Serving |
| ShardNode.ShardKV.MoveShard | src/shardkv/server.go:269-293 | one shard becomes what its old and new owner make of it, the others stay |
| ShardNode.ShardKV.HandlePullShard | src/shardkv/server.go:522-550 | the answer is refused for a configuration not reached yet and otherwise holds the data asked for and the whole dedup table |
| ShardNode.ShardKV.InstallData | src/shardkv/server.go:301-312 | exactly the Pulling shards among those asked for take the pulled data |
| ShardNode.ShardKV.HandleInstallShard | src/shardkv/server.go:297-320 | the state is that of ShardServer.ApplyInstallShard |
| ShardNode.ShardKV.HandleDeleteShard | src/shardkv/server.go:324-339 | the state is that of ShardServer.ApplyDeleteShard, which ShardHandover.DeleteInRuns characterises |
| ShardClients.ClientsLinearizable | src/shardkv/server.go:101-169 | in every run of groups and clients with calls and returns, while shards move, what the clients see is linearizable against one store |
| ShardClients.Answered | src/shardkv/server.go:219-250 | an answered Get returned what its shard held at the step that answered it, and an answered mutation took effect at some step before its return |
| ShardClients.WritesOnce | src/shardkv/server.go:239-249 | a mutation takes effect in at most one step of a run |
| ShardClients.IsLatest | src/shardkv/client.go:54-115 | while a client waits for an answer, no later mutation of it has taken effect |
| ShardClients.WholeTruth | src/shardkv/server.go:219-250 | the one store holds for a key what the fold of its shard holds |
| ShardServer.KeysSpread | src/shardkv/client.go:21-28 | keys share a shard if and only if their first characters are a multiple of ten apart, and the ten digits reach all ten shards |
| ShardHandover.MovesIff | src/shardkv/server.go:254-294 | in every run a group moves on if and only if the configuration is the next one and it serves all its shards; then it serves what it keeps or gets from nobody, waits for what another group had, keeps for others what it gives away, and has nothing else |
| ShardHandover.InstallInRuns | src/shardkv/server.go:297-320 | installing what was asked for in the present configuration leaves the group with every write to the shard, and pulled if it was waiting; other shards stay |
| ShardHandover.DeleteInRuns | src/shardkv/server.go:324-339 | a delete step about shards pulled in the present configuration leaves the new owner serving them with every write to them, and the old owner without them; all other shards stay |
| ShardHandover.Handover | src/shardkv/server.go:254-339 | from any state of a run, moving on, installing and confirming hand a shard over: the new owner can serve it with every write to it |
| ShardHandover.ServesIff | src/shardkv/server.go:219-250 | in every run an operation is refused if and only if the group does not own or does not serve the shard; a mutation takes effect if its client has no number as high in the log, and does not if it has one for the same shard |
| Rebalancing.Rebalance | src/shardctrler/server.go:193-264 | without groups every shard goes to group 0; otherwise every shard is on a live group, every group has exactly its target load, the lowest-numbered shards within the target stay, and the rest go out in increasing group order |
| Assignment.OneResult | src/shardctrler/server.go:189-192 | that description has one result, so the outcome does not depend on the order in which the map of groups is walked |
| Assignment.FewestMoves | src/shardctrler/server.go:237-263 | no assignment with these target loads moves fewer shards |
| Assignment.FewestIff | src/shardctrler/server.go:189-190 | it moves the fewest shards among all balanced assignments if and only if no group favoured with an extra shard is at most at the base load while another group is above it |
| Assignment.FewerWouldDo | src/shardctrler/server.go:189-190 | with groups 2 and 3 at five shards each and group 1 joining, a balanced assignment with fewer moves exists |
| Assignment.Keeps | src/shardctrler/server.go:240-252 | a group keeps the smaller of its load and its target |
| Assignment.TargetsSum | src/shardctrler/server.go:209-219 | the targets add up to the number of shards |
| Assignment.TargetFalls | src/shardctrler/server.go:209-219 | a group's target never rises when groups are added |
| Assignment.BalancedLoads | src/shardctrler/server.go:209-219 | in any balanced assignment a group has the base load or one more |
| Assignment.JoinMoves | src/shardctrler/server.go:154-158 | from target loads a join moves shards only to groups that joined |
| Assignment.LeaveMoves | src/shardctrler/server.go:159-173 | from target loads a leave moves only shards of groups that left |
| Rebalancing.SortedGids | src/shardctrler/server.go:194-198 | the group ids in increasing order, whatever the order of the walk |
| Rebalancing.TargetLoads | src/shardctrler/server.go:209-219 | each group's target by its rank among the groups |
| Rebalancing.CountLoads | src/shardctrler/server.go:221-235 | the loads of live groups and the shards that need a home |
| Rebalancing.ReleaseOne | src/shardctrler/server.go:241-251 | the search finds the highest-numbered shard of the group |
| Rebalancing.Release | src/shardctrler/server.go:237-252 | every over-loaded group is cut to its target and its highest shards become unassigned |
| Rebalancing.Fill | src/shardctrler/server.go:258-262 | one group takes unassigned shards in order until it has its target |
| Rebalancing.HandOut | src/shardctrler/server.go:255-263 | all shards find a home and all groups reach their target |
| Rebalancing.AllHome | src/shardctrler/server.go:255-263 | because the targets add up, running out of shards and filling all groups coincide |
| ShardCtrler.ShardCtrler.constructor | src/shardctrler/server.go:284-292 | configuration 0 has no groups |
| ShardCtrler.ShardCtrler.ConfigAt | src/shardctrler/server.go:105-110 | configuration num, or the latest if there is none |
| ShardCtrler.ShardCtrler.ApplyMutation | src/shardctrler/server.go:145-179 | exactly one configuration is appended, the one the operation makes of the last |
| ShardCtrler.ShardCtrler.Apply | src/shardctrler/server.go:114-141 | old indices, queries and repeated requests change no configuration |
| ShardCtrler.CopyGroups | src/shardctrler/server.go:181-187 | the copy is equal |
| ShardCtrler.AddGroups | src/shardctrler/server.go:155-157 | joined groups replace or extend the old ones |
| ShardCtrler.DropGroups | src/shardctrler/server.go:160-162 | the groups that leave are removed |
| ShardCtrler.ClearShards | src/shardctrler/server.go:163-172 | exactly their shards become unassigned |
| CtrlerTheorems.SameState | src/shardctrler/server.go:112-142 | replicas that have applied equally much of the log are equal |
| CtrlerTheorems.ReplicasAgree | src/shardctrler/server.go:112-142 | of any two replicas one has all the configurations of the other |
| CtrlerTheorems.ChangesIff | src/shardctrler/server.go:119-142 | an entry makes a new configuration if and only if it is applied for the first time, is not a query and has a higher number than all entries of its client before it in the log |
| CtrlerTheorems.RunRemembers | src/shardctrler/server.go:128-140 | the dedup table has, for each client, the highest number it has in the applied part of the log |
| CtrlerTheorems.RunLevelled | src/shardctrler/server.go:145-179 | in every run: without moves all groups of every configuration are at their targets, and whatever moves came before, every join or leave puts all groups at their targets |
| CtrlerTheorems.RunMovesNeeded | src/shardctrler/server.go:145-179 | in every run without moves each step that changes the owner of a shard is a join that gives it to a new group or a leave of its owner |
| CtrlerTheorems.OnlyNeeded | src/shardctrler/server.go:145-179 | from level loads a join moves shards only to new groups, a leave only the leavers' shards, a move one shard |
| CtrlerTheorems.RunGood | src/shardctrler/server.go:145-179 | in a sensibly used controller configurations are numbered 0, 1, 2, ..., every shard is with a live group while there is one, and groups never run out again |
| CtrlerTheorems.FeedsGroups | src/shardctrler/server.go:92-101 | such a controller gives the replica groups configurations that meet the hypothesis of the migration theorems |
| KvTheorems.ReplicaIsLog | src/kvraft/server.go:148-238 | in every run with in-order commands and any mix of snapshots and restarts, data and dedup are what the log prefix means: a mutation counts only if its number exceeds all earlier mutations of its client |
| KvTheorems.ReplicasAgree | src/kvraft/server.go:198-206 | replicas that stand for equally much of the log hold equal data and dedup |
| KvTheorems.ExecuteKeeps | src/kvraft/server.go:160-183 | executing the next command keeps the store equal to what the log means |
| KvTheorems.SeenIff | src/kvraft/server.go:162-164 | a mutation is answered from the dedup table if and only if it does not count |
| KvTheorems.RunInv | src/kvraft/server.go:208-238 | replicas, persisted and travelling snapshots always match their log prefix |
| KvTheorems.CountsOnce | src/kvraft/server.go:160-183 | of all log entries of one request at most one counts |
| KvTheorems.EffectIff | src/kvraft/server.go:162-164 | a logged mutation has taken effect if and only if its client logged no later mutation before it |
| KvTheorems.AnswerIsOwn | src/kvraft/server.go:81-91 | a request is answered without ErrWrongLeader if and only if it was itself the command at its index; a Get returns what the log before it wrote or that there is no such key, and a mutation has taken effect exactly if its client did not run ahead |
| RaftKv.ClientsLinearizable | src/kvraft/server.go:70-98 | for every run of Raft with messages to the services in order, any reading of commands, and clients whose calls and returns are steps of that run: what the clients see is linearizable against the whole store |
| RaftKv.ServicesAreReplicas | src/kvraft/server.go:148-238 | step by step, the services of such a run are replicas of the committed log in the sense of KvTheorems, with their snapshots and restarts |
| RaftKv.StepSimulates | src/kvraft/server.go:148-238 | one step of the cluster is one step of the replicas, or one they do not see |
| RaftKv.CommittedLog | src/raft/raft.go:711-728 | there is one log that says what every peer at every moment knows to be committed |
| RaftStarted.RunStarted | src/raft/raft.go:478-491 | every entry of every log was handed to a leader in an earlier step |
| ClientHistory.PointsLinearize | src/models/kv.go:17-57 | a history is linearizable if every operation acts on the store at a moment of its own, nothing else changes the store, and the moments respect real time |
| ClientHistory.RequestsLinearize | src/models/kv.go:17-57 | the same for requests, counting those that returned and those that took effect without returning |
| KvClients.ClientsLinearizable | src/kvraft/server.go:70-98 | in every run of replicas and clients with calls and returns, with crashes, snapshots and repeated requests, what the clients see is linearizable against the whole store |
| KvClients.Answered | src/kvraft/server.go:81-91 | an answered request is in the log; a Get returned what the log before it wrote, and a mutation counts |
| KvClients.NotOvertaken | src/kvraft/client.go:38-73 | a client that waits for each answer has no later request in the log before this one |
| KvReplica.KVServer.constructor | src/kvraft/server.go:250-271 | a restart takes the state from the persisted snapshot and lastApplied from 0 |
| KvReplica.KVServer.ReadSnapshot | src/kvraft/server.go:225-238 | an empty or unreadable snapshot changes nothing |
| KvReplica.KVServer.ApplyCommand | src/kvraft/server.go:148-196 | old indices are ignored; otherwise state, stamped result for a waiter and snapshot are those of Execute |
| KvReplica.KVServer.ApplySnapshot | src/kvraft/server.go:198-206 | a newer snapshot replaces the state |
| MrTheorems.DoneIsSequential | src/mr/coordinator.go:44-139 | in every run with crashes, late workers and re-issued tasks, once Done holds the outputs together are, as a multiset, the lines of the sequential program, for a reduce that does not depend on value order |
| MrTheorems.MapsFirst | src/mr/coordinator.go:50-68 | while any worker reduces, every map task is done |
| MrTheorems.RunInv | src/mr/coordinator.go:44-113 | files, counters, workers and outputs are consistent in every state of every run |
| MrTheorems.NextFileIsThere | src/mr/worker.go:122-140 | in every reachable state the next intermediate file a reduce task reads exists and is the whole bucket |
| MrTheorems.DoneOutputs | src/mr/coordinator.go:135-139 | when Done holds every output exists and is the reduction of its bucket |
| MrTheorems.NoReduceTasks | src/mr/coordinator.go:135-139 | without reduce tasks the job is done at once with no output, which is what the sequential program prints if and only if no map task emits anything |
| MapReduce.SameLines | src/mr/worker.go:120-165 | the lines of all buckets together are the lines of all pairs |
| MapReduce.KeyInOneBucket | src/mr/worker.go:85-90 | a key and all its values, in order, are in one bucket |
| MapReduce.GatheredIsBucket | src/mr/worker.go:121-140 | bucketing each map task and gathering is bucketing everything |
| MapReduce.OrderFreeIff | src/main/mrsequential.go:59-84 | any two orders of the same pairs print the same lines if and only if reduce does not depend on the order of values |
| MrWorker.DoMap | src/mr/worker.go:83-90 | bucket r holds exactly the emitted pairs of reduce task r, in order |
| MrWorker.SortByKey | src/mr/worker.go:142-142 | a permutation in key order |
| MrWorker.Group | src/mr/worker.go:152-165 | one line per key, in increasing key order, with reduce applied to all its values in their order |
| MrWorker.DoReduce | src/mr/worker.go:120-165 | the lines are the reduction of the files that exist |
| MrWorker.Sequential | src/main/mrsequential.go:38-84 | the lines are the reduction of everything the files emit |
| MrTheorems.AskIff | src/mr/coordinator.go:44-91 | for every ask in a run: the answer is the lowest map task that is idle or was issued more than ten seconds ago, while maps are unfinished, then likewise for reduces; it is NoTask if and only if the phase is unfinished and all its unfinished tasks were issued within ten seconds, and Exit if and only if all are done |
| MrTheorems.ReportIff | src/mr/coordinator.go:94-113 | for every report in a run: what it reports is done, all other tasks stay as they are, and Done holds exactly when all reduce tasks are done |
| MrCoordinator.FirstOpen | src/mr/coordinator.go:52-54 | the first task that is idle or has been in progress for more than the timeout, or the number of tasks if there is none |
| MrCoordinator.Coordinator.constructor | src/mr/coordinator.go:146-157 | all tasks idle |
| MrCoordinator.Coordinator.Issue | src/mr/coordinator.go:72-83 | the first open task is in progress from now, the others stay |
| MrCoordinator.Coordinator.RequestTask | src/mr/coordinator.go:44-91 | map tasks, then reduce tasks, then exit, as MrCoordinator.Request says, which MrTheorems.AskIff characterises |
| MrCoordinator.Coordinator.ReportTask | src/mr/coordinator.go:94-113 | a task is counted once |
| MrCoordinator.Coordinator.IsDone | src/mr/coordinator.go:135-139 | true if and only if all reduce tasks have been counted |

## Left out

- Timers, heartbeats, goroutine scheduling, locks and everything about time: any step may come at any moment, and no liveness is claimed.
- labrpc, labgob and the persister: messages are values in a set and encoding followed by decoding gives the value back; the branch of readPersist for undecodable state (`src/raft/raft.go:164-191`) is not modelled.
- Machine integers: terms, indices, sequence numbers and counters do not overflow.
- Waiter channels and apply timeouts of the services: only the check that the applied command is the request's own is modelled; a Query answers from the configurations at the moment it wakes up.
- The reply to an install-snapshot request may leave before the snapshot is handed to the service, where the code replies after it: the model has more runs than the code.
- RaftNode.Raft.HandleVoteReply: counts votes as a set of peers, because each peer is asked once per election and each reply is consumed once.
- RaftBackup.RejectionsBounded: speaks about followers that have not trimmed their log; a trimmed follower answers from its snapshot index.
- CheckOperations.CheckOperations: the goroutines of checkParallel are their results in any order of arrival, a timeout is a number of results after which it goes off, and the lists of partial linearizations it returns for display are not modelled.
- Checker.CheckSingle: runs with kill never set, and the memo table stores the bits of a bitset by value where the code stores a clone.
- Entries.MakeEntries, Rebalancing.SortedGids, MrWorker.SortByKey: insertion stands in for the library sorts; only order and contents are used.
- renumber, convertEntries and checkEvents of porcupine: they turn a list of call and return events with arbitrary ids into an entry list numbered from 0 in order of first occurrence; the checker is proved on every well-formed entry list, wherever it comes from.
- The visualization of porcupine.
- Bytes: strings are sequences of characters, so key2shard takes the first character where the code takes the first byte, and keys are sorted by characters.
- MrWorker.DoReduce: reads a fixed set of files; MrTheorems lets the files change between two reads.
- FNV hashing, JSON and temporary file names in src/mr/worker.go: ihash is any function to the naturals and a file is a value.
- Completion of the old owner's deletion in shardkv, and its snapshots: the first is not guaranteed by the code, the second repeats the key/value service.
- configPoller, shardPuller, shardGC and emptyLogChecker: any group may take any enabled step, which covers what they start.
- kvsrv, the clerks' retry loops (a request may be executed any number of times before it is answered), the drivers under src/main, src/mrapps and all test harnesses.
