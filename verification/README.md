# A verified model of the Raft key-value store

This project models the consensus core of the repository and proves what it guarantees. It has three layers.

**One node.** `ServerSpec.dfy` gives, as functions on the whole state of a node, what each handler of `raft/raft.go`
does: votes, batches, acknowledgements, commits, the apply loop, snapshots, client commands, membership changes and
recovery. `Raft.dfy` is the node object itself, with the fields of the original and methods that update them in place;
every method is proved to do to the whole state what its function says. The node owns its journal, a `WAL` object
(`WalFile.dfy`) whose file is a sequence of bytes, under any encoding of the records; only reading back asks that the
records written decode to themselves, and recovery reports an unreadable journal. `Config.dfy` holds the quorum test and
the membership arithmetic, with its loops over maps. Properties of one node are in `Compaction.dfy` (the compacted log
refines an unbounded one), `Journal.dfy`, `Membership.dfy`, `Proposals.dfy` (no request is lost), `Answers.dfy` (a success
is true), `Success.dfy` (what is committed is answered success), `CommitRule.dfy` (what is committed, exactly),
`Replies.dfy` (votes, batches and answers, exactly), `ExactlyOnce.dfy`, `SnapshotTransfer.dfy`, `Installation.dfy` (which
snapshots may be installed) and `RateLimiter.dfy` (api/api.go).

**The cluster.** `Cluster.dfy` puts servers and a set of packets together. Packets are never removed, so delivery may be
late, repeated, out of order or never happen; one handler call is one step, as the node's lock makes it. A `Run` is any
sequence of such steps of a fixed cluster of odd size that starts with servers that have never run, and may restart any
node at any time from whatever its journal and snapshot file hold. A `SafeRun` restarts a node only when its journal
names its current term and holds its whole log (`CleanCrash`); it may compact at any commit.

**The protocol.** `Election.dfy` (ballots, votes and terms, with crashes) and `Replication.dfy` (logs, acknowledgements
and choices) are abstract machines that carry the history a proof needs. `ReplicationProof.dfy` shows their invariant
inductive. `Simulation.dfy`, `HandlerSim.dfy` and `Safety.dfy` show that every step of every `SafeRun` is a few steps of
these machines; `RaceRun.dfy` shows the same of every `Run` and `Election.dfy` alone. `Theorems.dfy`, `LogTheorems.dfy`,
`ReadIndex.dfy`, `Requests.dfy` (from a client's command to its effect), `Backoff.dfy` and `RaceRun.dfy` then state the
guarantees on the runs themselves; `StaleRead.dfy` and `LostSuffix.dfy` are concrete runs of three servers
(`ThreeServers.dfy`) that show where a premise is needed.

## What the code does differently from the protocol it follows

The model keeps these departures, and the proofs find what they rest on.

- The quorum test counts a member that tests twice, in the tally and in the total (raft/config.go:124-138). For a voting
  member this is "at least half", so quorums meet exactly when the membership is odd (`Config.QuorumsMeetIffOdd`); with
  an even one, two disjoint halves both pass (`Config.SplitBrain`). Cluster theorems therefore ask for an odd size.
- A follower overwrites its vote with the leader it hears from (raft/raft.go:1104-1105), and a term learnt from others is
  not journalled (raft/raft.go:640-656). A term still has at most one leader over any run with any crashes
  (`RaceRun.ElectionSafety`): a voter's votes in a term go to one candidate and, at most, to the leader already elected.
- A successful answer reports the end of the follower's whole log and the commit index is capped there
  (raft/raft.go:1149-1161). This is sound only because every leader first appends a no-op of its own term
  (raft/raft.go:744-760) and every batch runs to the end of its log: a batch that ends in the leader's own term forces the
  follower's whole log to be a piece of the leader's (`Replication.MergeYieldsPrefix`).
- Compaction and snapshot installation reset the journal without writing back what they retain (raft/raft.go:1647-1665,
  1702-1726). The journal survives exactly when nothing was retained (`Compaction.SnapshotJournalledIff`,
  `Compaction.RestoreJournalledIff`). A crash then undoes commits: in the run of `LostSuffix.CrashesCanLoseWrites` a
  write that was committed and answered with success is replaced by another entry at the same index.
- `restoreSnapshot` retains everything above the snapshot's index without looking at the term of the entry at that
  index, and accepts a snapshot older than what is applied (raft/raft.go:1668-1719). `Installation.InstallIsSoundIff`
  gives, for every index, the exact test that would be needed for the result to be a log that leaders wrote. A snapshot
  that covers all that is applied must reach the end of the log or end with the entry held there
  (`Installation.Continues`); an older one must leave no hole (`Compaction.OldSnapshotLeavesHole` leaves one), and
  nothing may have changed since. Without the test, a suffix of an old leader survives: the follower acknowledges it to a
  leader that never had it, and one more write makes that leader commit an index where the follower holds another entry
  (`Installation.ForeignSuffixIsAcknowledged`).
- A snapshot replaces the configuration without asking whether the node is a member of it (raft/raft.go:1688-1700),
  while every committed or accepted configuration does (raft/raft.go:1401-1405). A node stays out of elections exactly
  while its configuration leaves it out, except after such a snapshot (`Membership.HandleKnows`).
- The answer to a snapshot does not say which one it is for, and the leader credits the peer with whatever it has
  compacted by then (raft/raft.go:1282-1284). The whole exchange leaves a true belief (`Installation.SnapshotExchange`)
  exactly when the leader did not compact further in between (`Installation.CreditIsTrueIff`).
- A compaction inside `applyLogs` happens before proposals are completed (raft/raft.go:1519-1537), and a request below
  the compaction point would then be refused although it is committed. No request of a leader gets there: the commit loop
  tries every index in turn, so a request is always answered in the call that commits it
  (`Success.CommittedIsAnswered`).
- A linearizable read samples the commit index without checking that nothing of an earlier term waits above it
  (raft/raft.go:459-478), while the comment in raft/raft.go calls the mode safe. `StaleRead.ReadsCanBeStale` is a run in
  which a new leader serves a read that misses a write already answered with success. `ReadIndex.ReadMissesExactly` says
  what a read can miss, `ReadIndex.ReadsAreFresh` that the missing check, `NothingOlderWaits`, is enough.

## Model

| member | source | states |
|---|---|---|
| Config.CountVotes | raft/config.go:122-129 | the counting loop yields the number of peers that voted |
| Config.ComputeMajority | raft/config.go:117-164 | the loops pass exactly when enough members voted, in numbers, on each side during a change |
| Config.MajorityExactly | raft/config.go:117-164 | the numbers for every position of the caller: half of each side it votes in, more than half of a side it is leaving |
| Config.AllNodeGRPC | raft/config.go:68-88 | the two loops yield every node but the caller, the new side's address winning |
| Config.PassesExactly | raft/config.go:124-138 | the threshold in numbers: at least half for a voting member, more than that otherwise |
| Config.HalvesOverlap | raft/config.go:117-164 | two halves of an odd membership share a member |
| Config.QuorumsMeetIffOdd | raft/config.go:117-164 | any two sets that pass share a member if and only if the membership is odd |
| Config.SplitBrain | raft/config.go:117-164 | every even membership splits into two disjoint sets that both pass |
| Config.JointQuorumMeetsOddSide | raft/config.go:143-164 | a joint quorum meets every quorum of whichever side has odd size |
| Config.ChangeIsRefusedIff | raft/config.go:186-218 | which changes are refused, exactly |
| Config.ChangeTakesEffect | raft/config.go:186-245 | an accepted change, completed, leaves exactly the asked node in, under its address, or out, and everybody else as before |
| Config.FromPeers | raft/config.go:247-258 | a node is always a member of its own initial configuration |
| Election.TermsAreWonOnce | raft/raft.go:1073-1080 | nobody can be elected in a term that was won |
| Election.MoveKeepsInv | raft/raft.go:640-713 | every election move, crashes included, keeps votes bound to one candidate or the elected leader |
| Election.MoveExtends | raft/raft.go:1055-1061 | votes are never withdrawn and a won term keeps its winner |
| RaceRun.VoteAskRuns | raft/raft.go:1036-1065 | answering a vote request is a legal election move |
| RaceRun.VoteReplyRuns | raft/raft.go:1067-1089 | counting a vote, and winning, are legal election moves |
| RaceRun.RebootRuns | raft/raft.go:1729-1784 | a restart from any journal resumes with the vote that was written last |
| RaceRun.RunRaces | raft/raft.go:584-624 | every run, with any restarts, is a run of the election machine |
| RaceRun.ElectionSafety | raft/raft.go:696-713 | over a whole run with any crashes, a term has at most one leader |
| RaceRun.VotesGoToOneCandidateOrTheLeader | raft/raft.go:1036-1105 | if a node's votes in one term go to two candidates, one of the two leads that term somewhere in the run, and nobody else ever does |
| Replication.LineagesMatch | raft/raft.go:1108-1146 | logs that agree on the term of one entry agree on everything before it |
| Replication.MergeFollows | raft/raft.go:1121-1146 | taking a batch leaves the log as it was or a piece of the sender's, and undoes no agreement |
| Replication.MergeYieldsPrefix | raft/raft.go:1149-1161 | a batch ending in the leader's own term leaves a log that is wholly a piece of the leader's |
| Replication.VoteCheckCarries | raft/raft.go:1051-1055 | the up-to-date check hands what the voter holds of a chosen prefix to the candidate |
| Replication.ChosenReachesLaterLeaders | raft/raft.go:1192-1201 | what one term chose is in the log with which every later leader stood |
| Replication.CommittedLogsAgree | raft/raft.go:1149-1155 | what two nodes have committed never differs |
| ReplicationProof.StepKeepsInv | raft/raft.go:1091-1213 | every protocol step keeps the invariant and only adds to the history |
| ReplicationProof.AcceptCommitSound | raft/raft.go:1149-1155 | a batch never cuts off what was committed, and the cap at the end of the log is safe |
| Wal.ReplayOfNext | storage/wal.go:131-143 | a journalled next entry reads back as appended |
| Wal.ReplayOfConflict | storage/wal.go:131-157 | a truncation and its replacement read back as both |
| WalFile.Uint32RoundTrip | storage/wal.go:203-207 | four big-endian bytes hold a number modulo 2^32 |
| WalFile.SomeCodecEncodes | storage/wal.go:197-222 | fewer than 2^32 records, whatever they are, have an encoding that fits its frames and decodes |
| WalFile.WrittenIsRead | storage/wal.go:87-161 | written records that each decode to themselves read back as the state of exactly those records |
| WalFile.TornJournal | storage/wal.go:98-125 | cut at any byte, a journal yields the whole records left if fewer than four bytes follow, and an error otherwise |
| WalFile.DamageIsFound | storage/wal.go:122-124 | a record that does not match its checksum makes reading fail, wherever it is |
| WalFile.NonsenseIsFound | storage/wal.go:126-129 | so does one that matches and cannot be decoded |
| WalFile.WAL.constructor | storage/wal.go:28-42 | a new journal is empty |
| WalFile.WAL.WriteRecord | storage/wal.go:197-222 | one record is appended to the file, framed by length and checksum |
| WalFile.WAL.AppendState | storage/wal.go:45-58 | the term and vote are appended |
| WalFile.WAL.AppendEntry | storage/wal.go:61-71 | an entry is appended |
| WalFile.WAL.AppendTruncate | storage/wal.go:74-84 | a truncation mark is appended |
| WalFile.WAL.Reset | storage/wal.go:164-182 | the file is emptied |
| WalFile.WAL.ReplayFile | storage/wal.go:87-161 | the read loop decodes any file as specified, and a file whose records decode to exactly those |
| WalFile.WAL.PutEntry | storage/wal.go:131-143 | an entry replaces the first with its index and all after it |
| WalFile.WAL.DropFrom | storage/wal.go:148-155 | truncation keeps the entries below an index |
| Raft.Node.constructor | raft/raft.go:178-224 | a node that has never run |
| Raft.Node.EntryAt | raft/raft.go:1806-1821 | the entry at an index, the compaction point included |
| Raft.Node.TermOf | raft/raft.go:1823-1829 | its term, 0 if it is not held |
| Raft.Node.EntriesFrom | raft/raft.go:1639-1645 | the loop collects what is held from an index on |
| Raft.Node.TransitionToFollower | raft/raft.go:640-656 | a new term without a vote, the queue refused, nothing journalled |
| Raft.Node.TransitionToCandidate | raft/raft.go:696-716 | the next term with its own vote, journalled; won at once if alone |
| Raft.Node.TransitionToLeader | raft/raft.go:718-760 | peers reset and a no-op of the term appended |
| Raft.Node.AdoptLeader | raft/raft.go:1096-1106 | what a message of a current leader does first |
| Raft.Node.ProcessRequestVote | raft/raft.go:1036-1065 | the whole state and the answer after a vote request |
| Raft.Node.ProcessRequestVoteResponse | raft/raft.go:1067-1089 | the whole state after a vote, the election included |
| Raft.Node.ApplyCommandBytes | raft/raft.go:1569-1609 | store and deduplication table after a command |
| Raft.Node.CommitConfigEntry | raft/raft.go:1480-1510 | what committing a joint or a final configuration does |
| Raft.Node.ApplyLogs | raft/raft.go:1460-1538 | the apply loop, compaction and answers, as one function of the state |
| Raft.Node.SplitProposals | raft/raft.go:1524-1537 | the loop answers what is due and keeps the rest |
| Raft.Node.TakeSnapshot | raft/raft.go:1611-1666 | the whole state after a compaction |
| Raft.Node.RestoreSnapshot | raft/raft.go:1668-1727 | the whole state after installing a snapshot |
| Raft.Node.ProcessInstallSnapshot | raft/raft.go:1239-1274 | the whole state after a chunk |
| Raft.Node.ProcessInstallSnapshotResponse | raft/raft.go:1276-1287 | the peer counts as caught up to the snapshot |
| Raft.Node.AppendBatch | raft/raft.go:1121-1146 | the merge loop, as one function of the log and the journal |
| Raft.Node.ProcessAppendEntries | raft/raft.go:1091-1162 | the whole state and the answer after a batch |
| Raft.Node.CheckCommitMajority | raft/raft.go:1215-1237 | the loop over acknowledgements decides the commit test |
| Raft.Node.AdvanceCommit | raft/raft.go:1192-1201 | the commit loop, as one function of the state |
| Raft.Node.ProcessAppendEntriesResponse | raft/raft.go:1164-1211 | the whole state after an acknowledgement or a refusal |
| Raft.Node.ReplicateToPeer | raft/raft.go:834-860 | the batch for a peer, none if it needs a snapshot |
| Raft.Node.HandleClientCommand | raft/raft.go:1289-1322 | the whole state after a command |
| Raft.Node.HandleConfigChange | raft/raft.go:1326-1390 | the whole state after a membership request |
| Raft.Node.LoadState | raft/raft.go:1729-1784 | fails exactly when the journal cannot be read; otherwise the state rebuilt from the snapshot file and the journal |
| Compaction.IndicesAgree | raft/raft.go:1788-1804 | the last index and term computed from the compacted log are those of the unbounded one |
| Compaction.EntriesAgree | raft/raft.go:1806-1829 | `getEntry` answers from the unbounded log at and above the compaction point |
| Compaction.ApplyAllCompacted | raft/raft.go:1460-1515 | the apply loop advances the store to the fold of every committed entry |
| Compaction.TakeSnapshotCompacted | raft/raft.go:1611-1657 | compaction changes neither the unbounded log nor the store |
| Compaction.SnapshotJournalledIff | raft/raft.go:1659-1665 | the journal survives a compaction if and only if nothing was retained |
| Compaction.CompactsExactly | raft/raft.go:1519-1522 | the log is compacted if and only if it has outgrown the threshold, then to exactly what is applied |
| Compaction.MergeEntriesCompacted | raft/raft.go:1121-1146 | on a compacted log the merge loop does what it does on the unbounded one, journal included |
| Compaction.RestoreSnapshotCompactedIff | raft/raft.go:1668-1719 | for a snapshot of any index, log, store and indices are afterwards those of the snapshot's entries followed by the node's own if and only if it covers all that is applied, or nothing changed since and no hole is left; how the two parts fit together is decided in `Installation` |
| Compaction.RestoreJournalledIff | raft/raft.go:1702-1726 | the journal survives an installation if and only if the snapshot covers everything held |
| Installation.TermDecidesPrefix | raft/raft.go:1702-1706 | comparing one term, that of the held entry at the snapshot's index, decides whether the node holds the snapshot's whole prefix |
| Installation.InstallIsSoundIff | raft/raft.go:1668-1719 | for a snapshot of any index, an older one being of the same committed entries, the node is afterwards described by some log that leaders wrote if and only if the stated test holds |
| Installation.InstallableIsSound | raft/raft.go:1702-1719 | then that log is the snapshot's entries if they reach the end, and the old log otherwise |
| Installation.InstallKeepsOrder | raft/raft.go:1702-1719 | and its terms stay in order, and it matches every other log that leaders wrote |
| Installation.ForeignSuffixIsAcknowledged | raft/raft.go:1149-1161 | a follower that installs a snapshot which fails the test answers a success beyond the leader's log, and the leader then commits an index where the follower holds another entry |
| Installation.SnapshotExchange | raft/raft.go:862-954 | from the chunks of the leader's snapshot to its answer: the follower holds, entry for entry, all the leader then credits it with, and the next entry is the one after |
| Installation.CreditIsTrueIff | raft/raft.go:1276-1287 | what the leader credits a peer with after an answer is true if and only if it compacted no further since the snapshot |
| Installation.SnapshotCarriesState | raft/raft.go:1611-1727 | a snapshot carries store, deduplication table and configuration to whoever installs it, whose ballot stays and whose indices never fall, and to the node's own restart |
| Compaction.OldSnapshotLeavesHole | raft/raft.go:1702-1706 | an older snapshot that leaves a hole in the log although nothing changed since |
| HandlerSim.VoteAskSim | raft/raft.go:1036-1065 | answering a vote request refines the protocol |
| HandlerSim.TimeoutSim | raft/raft.go:696-713 | standing for election refines the protocol |
| HandlerSim.AppendAskSim | raft/raft.go:1091-1162 | taking a batch, checks skipped by compaction included, refines the protocol |
| HandlerSim.AckSim | raft/raft.go:1164-1211 | acknowledgements and the commit loop refine the protocol |
| HandlerSim.ClientSim | raft/raft.go:1289-1322 | taking a command refines the protocol |
| HandlerSim.ReplicateSim | raft/raft.go:834-860 | what a leader sends is a piece of its term's log that runs to its end |
| HandlerSim.RebootSim | raft/raft.go:1729-1784 | a clean restart refines the protocol |
| Safety.StepSim | raft/raft.go:957-988 | every step of the cluster refines the protocol |
| Safety.RunSim | raft/raft.go:584-624 | every safe run of the cluster is a run of the protocol |
| Theorems.OneHistory | raft/raft.go:1460-1515 | a run has one history: at every time every node has applied a prefix of it, and its store is that prefix's |
| Theorems.StateMachineSafety | raft/raft.go:1460-1464 | no two nodes ever apply different entries at an index, and equally far means equal stores |
| LogTheorems.LogMatching | raft/raft.go:1108-1146 | equal index and term, at any two times and nodes, means equal entries everywhere below |
| LogTheorems.LogsAreSorted | raft/raft.go:1295-1301 | terms never decrease along a log nor exceed the node's |
| LogTheorems.LeaderOnlyAppends | raft/raft.go:744-760 | while it leads a term, a leader's log keeps every entry it had |
| LogTheorems.LeaderCompleteness | raft/raft.go:1192-1226 | what the commit rule covers is in the log of every leader of every later term, at every time |
| LogTheorems.MatchIndexIsHeld | raft/raft.go:1171-1175 | what a leader believes a follower to hold, the follower holds, entry for entry |
| LogTheorems.AcknowledgementSoundness | raft/raft.go:1157-1161 | a success reports the end of a log that is wholly a piece of the leader's |
| ReadIndex.NoLaterChoice | raft/raft.go:354-395 | a confirming quorum rules out that a later term chose anything before the sample |
| ReadIndex.GuardIsExact | raft/raft.go:459-466 | the test of the one entry after the commit index decides whether any entry of an earlier term waits |
| ReadIndex.CommittedInTermSuffices | raft/raft.go:459-466 | a leader that committed in its own term passes that test |
| ReadIndex.LeaderCommitRises | raft/raft.go:1192-1201 | while a node leads a term its commit index never falls |
| ReadIndex.ReadMissesExactly | raft/raft.go:434-479 | a served read has seen what a node had committed by the sample if and only if that does not wait in the leader's log in an earlier term |
| ReadIndex.ReadsAreFresh | raft/raft.go:434-479 | a served read sees everything any node had committed by the sample, if nothing of an earlier term waited then |
| StaleRead.ReadsCanBeStale | raft/raft.go:434-479 | a run in which a served read misses a write that was committed and answered with success before the sample |
| LostSuffix.CrashesCanLoseWrites | raft/raft.go:1647-1665 | a run whose only crash follows a compaction, in which two nodes apply different entries at one index and an answered write is gone |
| Requests.EntryIsTheCommand | raft/raft.go:1295-1301 | wherever a node holds the entry of a submission, it holds exactly the submitted command |
| Requests.SuccessIsTheCommand | raft/raft.go:1310-1314 | over a whole run every success is for a request submitted to that node while it led, and the one history holds its command, unchanged, at its index |
| Requests.AnsweredWriteTakesEffectOnce | raft/raft.go:1580-1608 | an answered write with a client and a positive id is in the history, and takes effect once however often and wherever it was submitted |
| CommitRule.NothingLeftToCommit | raft/raft.go:1192-1201 | after an acknowledgement no entry of the leader's term that enough members hold is left uncommitted, during a change too |
| CommitRule.CommitsExactly | raft/raft.go:1192-1226 | without configuration entries the new commit index is exactly the highest such index |
| CommitRule.AloneCommits | raft/raft.go:1316-1321 | a cluster of one commits and applies a command in the call that takes it |
| Replies.SentCarriesTerm | raft/raft.go:1091-1162 | everything a step sends carries the sender's term after the step, and replies go back to whoever asked |
| Replies.DeliveryRaisesTerm | raft/raft.go:1036-1106 | a node is never behind a message it took in, and stops leading when the message is ahead |
| Replies.StaleIsRefused | raft/raft.go:1092-1094 | a batch or vote request of an earlier term is refused with the newer term and changes nothing |
| Replies.DeposedLeaderLearns | raft/raft.go:1164-1169 | in a run, once the refusal of its stale request is delivered, the sender leads no earlier term |
| Replies.VoteIsGrantedIff | raft/raft.go:1036-1065 | when a vote is granted, exactly, in terms of the voter's whole log |
| Replies.VoteIsKept | raft/raft.go:1055-1061 | a granted vote is on disk, is granted again when asked again, and is refused to others for that term |
| Replies.AsksEveryPeer | raft/raft.go:794-826 | a candidate asks every peer, with the end of its whole log |
| Replies.StandsForItself | raft/raft.go:696-716 | standing writes the next term and its own vote to disk, and leads at once only without peers |
| Replies.WinsIff | raft/raft.go:1073-1088 | counting a vote wins if and only if enough members, on each side, granted theirs |
| Replies.BatchIsTakenIff | raft/raft.go:1108-1119 | when a batch is taken, exactly, and where a refusal points |
| Replies.BatchIsTaken | raft/raft.go:1121-1161 | the log after a batch is the merge of the two, and the commit index the leader's, capped at its end and never lowered |
| Replies.BatchEndsCandidacy | raft/raft.go:1096-1106 | a node that hears from a current leader stops standing, also when it refuses the batch |
| Replies.ChunkTerms | raft/raft.go:1239-1253 | a stale chunk changes nothing; any other is followed, whatever it holds |
| Replies.SnapshotAnswerTerms | raft/raft.go:1276-1287 | an answer to a snapshot deposes a leader of an earlier term and counts only in its own |
| Backoff.BatchesRunToTheEnd | raft/raft.go:834-860 | in a run every batch and heartbeat continues an entry of its sender's log, runs to its end, and carries its commit index |
| Backoff.RejectedRound | raft/raft.go:1202-1208 | a rejected round lowers the next index, by one or to the end of the follower's log, and touches no log |
| Backoff.AcceptedMeansEqual | raft/raft.go:852-860 | after an accepted round the two logs are equal |
| Backoff.FollowerHears | raft/raft.go:1149-1155 | and the follower has applied all that either had committed |
| Backoff.BackoffConverges | raft/raft.go:1108-1208 | from any leader and follower of a run, at most as many rounds as the first next index, and then the logs are equal, the leader knows it, and the follower has applied all that either had committed |
| Journal.ReplayKeepsLastVote | storage/wal.go:128-130 | a journal reads back the term and vote written last |
| Journal.HandleRecorded | raft/raft.go:957-988 | every handler keeps journal and log in step, compactions and installations that retain nothing included |
| Journal.JournalAgreement | raft/raft.go:1121-1146 | at any threshold, after any inputs whose compactions retain nothing, the journal reads back as the log and the last vote, and a restart rebuilds log, term and store |
| Journal.FreshIsRecorded | raft/raft.go:178-224 | a new node, of any threshold, can start such a run |
| Journal.CompactedIsRecordedIff | raft/raft.go:1611-1666 | a node that has just compacted can, if and only if it retained nothing |
| Membership.JointIsTransition | raft/config.go:186-229 | an accepted change opens what was asked for, one node away, or nowhere for a leader outside the cluster that removes itself |
| Membership.JointCommits | raft/raft.go:1480-1490 | committing a joint configuration appends its new side, alone, and the change stays pending |
| Membership.FinalCommits | raft/raft.go:1491-1508 | committing the final one adopts it and ends the change, and the leadership exactly when it leaves the leader out |
| Membership.MembershipChain | raft/raft.go:1326-1387 | in one leadership configurations strictly alternate: the joints open exactly the accepted changes in order, and each final is the new side of its joint |
| Membership.ChangesTakeEffect | raft/raft.go:1326-1508 | once a leader has applied what it proposed, its members are those it started with, changed by each accepted change once and in order |
| Membership.NewLeaderReaches | raft/raft.go:718-742 | a new leader is connected to every peer and presumes it to hold nothing |
| Membership.ChangeReaches | raft/raft.go:1413-1444 | an accepted change connects whoever joins, from the end of the log, and keeps what is known of the others |
| Membership.FinalReaches | raft/raft.go:1446-1458 | completing a change drops whoever left and nobody else |
| Membership.HandleKnows | raft/raft.go:1393-1405 | after any input a node is kept out of elections exactly if its configuration leaves it out; after a snapshot, exactly if it is a member of the new one as it was of the old |
| Proposals.HandleLedger | raft/raft.go:1310-1321 | every handler, snapshots included, keeps each request queued or answered once |
| Proposals.RequestsAreConserved | raft/raft.go:1524-1537 | after any inputs every request is in the queue or among the answers as often as it was submitted |
| Proposals.LosersAnswerEverything | raft/raft.go:651-655 | after any inputs a node that does not lead has answered every request it was ever sent |
| Answers.ApplyIsHonest | raft/raft.go:1460-1538 | one call of the apply loop answers success only for committed entries of the right term |
| Answers.SuccessMeansCommitted | raft/raft.go:1524-1537 | over any inputs, compactions and snapshots included, a success is given for an accepted request whose index is then committed, in the term it was accepted in |
| Answers.SuccessStaysCommitted | raft/raft.go:1524-1537 | until a snapshot is installed, every earlier success is still committed in that term |
| Success.EarlierPasses | raft/raft.go:1215-1226 | an index that a majority holds carries every earlier one |
| Success.AdvanceSettles | raft/raft.go:1192-1201 | in the commit loop a request is answered success in the call that commits it, and nothing else leaves the queue |
| Success.CommittedIsAnswered | raft/raft.go:1519-1537 | over any inputs of one leadership, every accepted request up to the commit index was answered success, the others wait, only requests turned away on arrival were refused, and each entry is exactly the command or change asked for |
| ExactlyOnce.TableIsHighest | raft/raft.go:1580-1608 | the deduplication table holds each client's highest written request |
| ExactlyOnce.SkipsExactly | raft/raft.go:1580-1585 | a write is skipped if and only if an earlier one covers its request |
| ExactlyOnce.EffectiveIdsIncrease | raft/raft.go:1580-1585 | a client's effective request ids strictly increase |
| ExactlyOnce.AppliedExactlyOnce | raft/raft.go:1569-1609 | the store is that of the effective writes, each done once, without any table |
| ExactlyOnce.LastWriteWins | raft/raft.go:1588-1603 | a key holds the value of the last effective write to it, and is absent if that write removed it or there was none |
| ExactlyOnce.AtMostOneEffect | raft/raft.go:1580-1585 | however often a request is committed, one entry at most takes effect |
| ExactlyOnce.FirstTakesEffect | raft/raft.go:1580-1608 | a request above all earlier ones of its client takes effect |
| ExactlyOnce.FoldAcrossCut | raft/raft.go:1681-1686 | applying the rest to a snapshot of a prefix is applying it all |
| ExactlyOnce.UnchangedIffDuplicate | raft/raft.go:1580-1608 | a tracked write changes nothing if and only if it is a duplicate |
| ExactlyOnce.RepeatsAreHarmless | raft/raft.go:1619-1629 | committing a request again, anywhere later and across a snapshot, changes nothing then or later |
| ExactlyOnce.UntrackedRepeatsAreNot | raft/raft.go:1580-1585 | for every write without a client or a positive id there is a log after which repeating it changes the store |
| ExactlyOnce.HarmlessIffTracked | raft/raft.go:1580-1608 | repeating a write is harmless after every log that holds it if and only if it carries a client and a positive id |
| SnapshotTransfer.SendSnapshot | raft/raft.go:909-954 | the sending loop ends and sends the chunks of the snapshot |
| SnapshotTransfer.EachByteOnce | raft/raft.go:909-920 | every byte is in exactly one chunk, unchanged |
| SnapshotTransfer.BufferIsReceived | raft/raft.go:1239-1274 | the handler, message by message, keeps exactly the buffer that the chunks build up |
| SnapshotTransfer.NodeHoldsPrefix | raft/raft.go:1255-1261 | whatever is lost, repeated or reordered, a node's buffer is the bytes before some chunk |
| SnapshotTransfer.WholeIffItContinues | raft/raft.go:1255-1271 | what is decoded is the whole snapshot if and only if the final chunk continues the buffer |
| SnapshotTransfer.InOrderInstalls | raft/raft.go:1239-1274 | from any state of the buffer, handling all chunks in order adopts the sender and restores the snapshot they encode |
| RateLimiter.Limiter.constructor | api/api.go:33-40 | a new bucket is full |
| RateLimiter.Limiter.Allow | api/api.go:43-61 | the fields and the answer after a request |
| RateLimiter.TokensStayInRange | api/api.go:43-61 | tokens stay between zero and the capacity |
| RateLimiter.WindowBound | api/api.go:43-61 | in any window at most the capacity plus the rate times its length is allowed |
| RateLimiter.RefusedOnlyWhenSpent | api/api.go:43-61 | a request is refused only if in some window up to it more than that, less one, was allowed |

## Left out

- gRPC, channels, goroutines, dialling and TLS: a handler call is one atomic step, and a failed dial is not modelled.
- Timers, the lease read mode and the pre-vote round: a node that does not lead may stand for election at any time, which includes every outcome of a pre-vote.
- The branches for a missing configuration (raft/raft.go:1030, 1083, 1227): `NewRaft` always sets one.
- Write errors of the journal and of the snapshot file, and crashes inside a step: they are mostly only logged.
- JSON, protobuf, checksums and file operations: records, snapshots and commands are values, and `WalFile` takes any encoding of records and any checksum of 32 bits.
- InstallSnapshot and membership changes between nodes: the cluster has fixed members and no snapshots; their rules are proved for one node, the chunks and the configurations.
- Restarts that lose a retained suffix or a term that was never journalled, in every theorem but election safety: `LostSuffix.CrashesCanLoseWrites` shows that the others are then false.
- Fault injection, shutdown, metrics, HTTP handlers, authentication, gateway, frontend and deployment files: input, output and display.
- The wall clock of the rate limiter and the reads: clock readings are parameters, and waiting is a later step of the run; floats are reals.
- Addresses of peers in the node object: only the ids are compared; `Config.AllNodeGRPC` keeps them.
- Journal.JournalAgreement: stops at a compaction that retains a suffix, after which the journal is incomplete (`Compaction.SnapshotJournalledIff`).
- Answers.SuccessStaysCommitted: stops at an installed snapshot, which may replace the log the answers speak of; `Answers.SuccessMeansCommitted` goes on.
- Answers.SuccessMeansCommitted: takes snapshots that are not older than what is applied; `Compaction.RestoreSnapshotCompactedIff` says when an older one does no harm to log and store.
- Success.CommittedIsAnswered: speaks of one leadership; what waits when it ends is refused, committed or not, and `Proposals.RequestsAreConserved` accounts for it.
- Membership.MembershipChain: does not let another leader's batch or snapshot of the same term arrive, which election safety excludes.
- ReadIndex.ReadsAreFresh: keeps as premise a check the code does not make; without it the statement is false (`StaleRead.ReadsCanBeStale`).
