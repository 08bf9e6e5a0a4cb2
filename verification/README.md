# A model of the durable HumanAgent

HumanAgent puts people behind an agent protocol. A caller creates a Task, a human
worker leases it, answers, freezes a Workspace Artifact and completes; everything is
one command at a time over one transactional store. This project models that command
machine, the store it runs on, the worker delivery path in front of it and two of its
clients, and proves what holds over every run: exactly-once effects, fencing, terminal
immutability, one linear Workspace head, sound acknowledgements, complete paging.

`dafny verify dfyconfig.toml` checks the project.

## How the model is built

| layer | modules |
|---|---|
| values and checks | `Types`, `Validators` |
| store state, orders | `Store`, `Ordering` |
| what a command commits | `Commands` (`Refusal`, `Decide`, `Apply`, `Execute`) |
| invariant and its preservation | `Invariant`, `Tables`, `Steps`, `Growth`, `Commit` |
| what a caller can rely on | `Verdicts`, `Outcomes` |
| whole runs | `Runs`, `Fencing`, `History`, `Contents`, `Workspace`, `Corruption`, `Ambiguity`, `Interleaving` |
| the code's own steps | `Transactions`, `MemoryStore`, `AgentCore`, `AgentCommands`, `Agent` |
| reading | `Paging`, `Streaming`, `Queries`, `Leases` |
| worker delivery | `Transport`, `Journal`, `Endpoint`, `DeliverySystem` (file `Delivery.dfy`) |
| clients and sibling store | `Sends`, `Lifecycle`, `LlmStore` |

`Commands.Execute` is the specification: the first failing check in the system's own
order, or all writes of the commit together. `Agent.Do` is the code's form: it checks
arguments, looks for the receipt, opens a copy of the store, runs the checked loads,
compare-and-swaps and inserts one by one, and swaps the copy in at the end. `Agent.Do`
is proved to do exactly what `Execute` says, with and without ambiguous commits, so
every theorem about runs of `Execute` is a theorem about the step-by-step code.

A run is any sequence of commands. The clock, the size of sealed content and the
configured Artifact limit are arbitrary inputs of every command. Digests are injective:
a command's intent digest is the command, a content digest is the content, and a
computed Workspace revision is a constructor over its base. Concurrency is modelled as
all interleavings of atomic transactions, network messages or lock sections.

## One result that is not as expected

A sound store should never report corruption. It can: `verifyLeaseGrantHistoryFromStore`
answers with the corruption error when a worker presents a fence of an existing Task that
was granted to somebody else (agent/store_core.go:214). `Corruption.SoundStoreReportsCorruption` reaches such a
store in two commands. `Corruption.CorruptionMeansForeignFence` gives the exact
condition: in every reachable store a command reports corruption if and only if it
presents such a fence and gets as far as that check. FreezeArtifact, which checks its
lease another way, answers StaleLease instead. Because the worker endpoint does not
treat corruption as a refusal, an outbox entry with such a fence is neither acknowledged
nor rejected, and stays in the outbox (`DeliverySystem.ForeignFenceStaysInOutbox`).
`DeliverySystem.StuckOutboxIsReachable` reaches such an outbox in three moves. The exact
condition is again the foreign fence: without a fault every other delivery is answered
(`DeliverySystem.NoAnswerIff`), and after any run one faultless round trip settles a
waiting entry if and only if it does not present such a fence
(`DeliverySystem.RoundTripSettlesIff`).
Every other fail-closed check of the modelled code is proved unreachable on reachable stores.

## Model

| member | source | states |
|---|---|---|
| `Commit.CreateCommit` | agent/agent.go:407-457 | a committed creation keeps every row check, uniqueness rule, log, lease, Artifact, receipt and command rule of the store, and loses nothing |
| `Commit.TransitionCommit` | agent/agent.go:629-804 | the same for the seven lifecycle transitions, which together move the Task, message, event, Artifact, Submission and receipt |
| `Commit.FreezeCommit` | agent/artifact.go:119-250 | the same for freezing an Artifact and claiming the Workspace head |
| `Commit.GrantCommit` | agent/lease.go:56-112 | the same for acquiring or claiming a lease |
| `Commit.FenceCommit` | agent/lease.go:159-191 | the same for fencing a lease |
| `Commit.ReceiptCommit` | agent/artifact.go:339-399 | the same for recording an apply receipt, new or known |
| `Commit.ExecuteKeeps` | agent/store_core.go:54-79 | any command with any answer leaves a sound store that has lost nothing |
| `Runs.ReachableInv` | agent/agent.go:1033-1112 | every store reachable from the empty one satisfies all fail-closed checks at once |
| `Runs.RunKeeps` | humantest/agent_store_memory.go:175-203 | over any run: receipts, messages, events, grants and Submissions are only added; fences and revisions never fall; terminal records stay; settled Artifacts stay; heads only climb their chain |
| `Runs.PermanentReplay` | agent/store_core.go:103-130 | after any later run, an exact repetition returns the original answer and changes nothing |
| `Runs.ReusedIdRefused` | agent/store_core.go:103-143 | the identifier of a committed command is refused for any other input or kind, after any later run, and nothing changes |
| `Runs.RefusedLeavesNoTrace` | humantest/agent_store_memory.go:175-203 | a refused command could as well never have been sent |
| `Verdicts.LifecycleTable` | agent/agent.go:464-555 | command by command: the states a Task may be in before, the state and the event it has afterwards, one revision on |
| `Verdicts.SucceedsIff` | agent/agent.go:647-735 | in a reachable store a new well-formed command, of any of the thirteen kinds, succeeds if and only if the records allow it: lifecycle state, expected revision, current lease, free Task, free identifiers, confirmed base, longest waiting Task, a usable clock and content that can be sealed |
| `Verdicts.RefusalTellsTheTruth` | agent/agent.go:652-735 | each error of such a command names a check that fails in the store it met, and the checks made before that one pass |
| `Verdicts.AnswerShowsTheRecord` | agent/store_core.go:156-194 | a commit is recorded under the authority and identifier it names, answers with the record it leaves behind, and is dated at the clock or, if later, at the latest thing it follows |
| `Verdicts.ClaimServesTheOldest` | agent/dispatch.go:56-118 | a claim gives the worker the Task that has waited longest, ties going to the smaller Workspace and then Task identifier in lexicographic order; it finds none if and only if none waits |
| `Verdicts.RecordsAreBounded` | agent/agent.go:1210-1237 | every message, Artifact and command in a reachable store is within the limits on parts, bytes, identifiers, revisions, fences and texts |
| `Fencing.GrantHistory` | agent/store_core.go:238-265 | grants of a Task are exactly the fences 1..fence, at non-decreasing times, and an owner is the worker of the last one |
| `Fencing.RetiredForever` | agent/lease.go:120-123 | a grant that is no longer current never becomes current again, also for the same worker |
| `Fencing.LosingALeaseRetiresIt` | agent/lease.go:159-183 | a grant that was current and no longer is has retired for good |
| `Fencing.CommitMovesLease` | agent/lease.go:64-112 | the only ways a commit changes a lease: a free Task gets its next fence, a holder is fenced by its own grant, a Task ends; the last two always clear the holder |
| `Fencing.LeaseIsExclusive` | agent/lease.go:67-68 | a current grant stops being current if and only if a command commits that fences exactly it or ends its Task |
| `Fencing.LeaseLostInRun` | agent/lease.go:159-191 | over any run, a lost grant was lost to such a command, committed while it was still current |
| `Fencing.CommitsOnlyUnderCurrent` | agent/store_core.go:220-232 | a command that carries a grant commits only while that grant is current |
| `Fencing.RetiredNeverCommits` | agent/agent.go:652-656 | no command recorded after a grant retired acts under it, in any continuation |
| `Fencing.RetiredIsRefused` | agent/artifact.go:543-590 | an uncommitted command under a retired grant is refused for ever and changes nothing |
| `History.TaskIsFoldOfLog` | agent/agent.go:676-796 | events occupy exactly 1..EventCount = Revision, and reading them in order rebuilds the whole Task record, Submission with final message, Artifact and time included; only the constant context is not in the log |
| `History.TerminalEventIsLast` | agent/agent.go:661-667 | a terminal event ends its log, and the Task is in its state |
| `History.MessagesAlternate` | agent/agent.go:1069-1085 | messages occupy 1..MessageCount once each, callers odd and agents even, and the state tells the parity of the count |
| `History.CommandsMatchEvents` | agent/store_core.go:156-180 | recorded Task commands and events are in one-to-one relation; the event has the kind and state of its command, the revision after the expected one, and the message, Submission and Artifact the command names |
| `Contents.CommitStores` | agent/store_core.go:182-194 | a commit stores what it was asked to store, field by field, and says so in its answer |
| `Contents.CommittedContentIsStored` | agent/agent.go:676-799 | in every reachable store each recorded command finds its effect, field by field: its event at the revision after the expected one, its message with sequence and author, its Submission with the Artifact it published, the Artifact with task, base, size, media type and the digests of its payload, the grant in the history, the fenced grant retired for good, the receipt decision |
| `History.CompletionIsAtomic` | agent/agent.go:706-779 | completed if and only if the Submission row exists and is the Task's; the Artifact row's state always fits the Task's state |
| `History.TerminalIsFinal` | agent/lease.go:64-69 | a terminal Task keeps record, log, messages and grants in every continuation |
| `History.TimeOrder` | agent/agent.go:1270-1279 | under any clock, event, message and grant times never decrease within a Task |
| `History.ReceiptTimes` | agent/artifact.go:355-366 | frozen, published and recorded times are in this order |
| `Workspace.AdvanceStep` | agent/artifact.go:373-392 | a first success moves the head from its base to its result |
| `Workspace.OtherStep` | humantest/agent_store_memory.go:701-725 | nothing else moves a head or adds a success |
| `Workspace.HeadFollowsPath` | humantest/agent_store_memory.go:712-725 | from any head, the successes in commit order are a path to the final head |
| `Workspace.FirstHead` | agent/artifact.go:177-192 | a Workspace gets its head with its first freeze, at the base of that freeze, and in no other way |
| `Workspace.HeadIsLinear` | agent/artifact.go:172-192 | a head exists if and only if an Artifact was frozen, and then the successes in commit order are one path from the base of the first frozen Artifact to the head |
| `Workspace.PathIsExact` | humantest/agent_store_memory.go:727-742 | the path holds every success of the run, each Artifact once |
| `Workspace.NoFork` | agent/artifact.go:776-784 | two Artifacts on one base are never both applied |
| `Corruption.CorruptionMeansForeignFence` | agent/store_core.go:203-218 | in a reachable store a command reports corruption if and only if it presents a fence granted to another worker |
| `Corruption.SoundStoreReportsCorruption` | agent/store_core.go:214 | a concrete reachable store and command that report corruption |
| `Corruption.ForeignFenceStays` | humantest/agent_store_memory.go:634-644 | a fence granted to another worker stays foreign in every continuation |
| `Ambiguity.ExactlyOnce` | humantest/agent_commit_unknown.go:61-70 | with any retries and lost or unacknowledged commits, the store ends where a fault-free run of the attempted commands ends in which every command succeeds and no identifier commits twice |
| `Ambiguity.AnswersAgree` | agent/store_core.go:81-101 | all successful answers to one command are equal, under any faults |
| `Ambiguity.EffectiveRun` | humantest/agent_commit_unknown.go:13-33 | the attempts that wrote something, taken alone, are that fault-free run |
| `Ambiguity.KeysCommitOnce` | humantest/agent_store_memory.go:552-562 | a run in which everything commits uses no identifier twice |
| `Ambiguity.TryReachable` | humantest/agent_commit_unknown.go:61-70 | an attempt under any fault leads only to stores that fault-free runs reach |
| `Ambiguity.PreflightIsInvisible` | agent/agent.go:598-628 | looking for the receipt in a separate earlier read gives the answer of one of the two moments, whatever commits in between |
| `Interleaving.InterleavedExactlyOnce` | agent/agent.go:598-645 | however the reads and transactions of concurrent calls interleave and whatever faults they meet, the answered calls are atomic attempts, one each, in the order of their answers; so a fault-free run in which no identifier commits twice accounts for the store, and successful answers to one command are equal |
| `Store.OldestClaimableUnique` | humantest/agent_store_memory.go:744-752 | the oldest claimable Task does not depend on the order in which the map is walked |
| `Store.IdLessIsLexicographic` | humantest/agent_store_memory.go:744-752 | the order on identifiers is the lexicographic one |
| `MemoryStore.Unit.ResolveTask` | humantest/agent_store_memory.go:295-305 | returns a Task with this public identifier, or there is none |
| `MemoryStore.Unit.LoadLatestLeaseGrant` | humantest/agent_store_memory.go:374-389 | returns the grant with the highest fence of the Task, or there is none |
| `MemoryStore.Unit.FindClaimableTask` | humantest/agent_store_memory.go:391-406 | returns the unleased open Task of the authority that was created before every other, or there is no such Task at all |
| `MemoryStore.Unit.InsertCommand` | humantest/agent_store_memory.go:552-562 | inserts unless the identifier is used |
| `MemoryStore.Unit.InsertTask` | humantest/agent_store_memory.go:564-578 | inserts unless the authority already uses the Task identifier |
| `MemoryStore.Unit.CompareAndSwapTask` | humantest/agent_store_memory.go:580-600 | swaps exactly when revision and named lease are as expected; identity, context and creation time cannot change |
| `MemoryStore.Unit.InsertMessage` | humantest/agent_store_memory.go:602-617 | inserts unless identifier or sequence is taken |
| `MemoryStore.Unit.InsertEvent` | humantest/agent_store_memory.go:619-632 | appends unless the sequence is taken |
| `MemoryStore.Unit.InsertLeaseGrant` | humantest/agent_store_memory.go:634-644 | inserts unless the fence is taken |
| `MemoryStore.Unit.InsertArtifact` | humantest/agent_store_memory.go:646-664 | inserts unless the identifier is used in the authority or the Task has an Artifact |
| `MemoryStore.Unit.CompareAndSwapArtifact` | humantest/agent_store_memory.go:666-682 | settles exactly an Artifact of this Task in the expected state |
| `MemoryStore.Unit.InsertSubmission` | humantest/agent_store_memory.go:684-699 | inserts unless the Task or the identifier has one |
| `MemoryStore.Unit.InsertWorkspaceHead` | humantest/agent_store_memory.go:701-710 | inserts only the first head |
| `MemoryStore.Unit.CompareAndSwapWorkspaceHead` | humantest/agent_store_memory.go:712-725 | swaps exactly when the confirmed revision is as expected |
| `MemoryStore.Unit.InsertApplyReceipt` | humantest/agent_store_memory.go:727-742 | inserts unless the Artifact or the identifier has one |
| `Transactions.UpdatesKeep` | humantest/agent_store_memory.go:552-742 | whatever writes are tried, in any order, with any commits and rollbacks, public Task identifiers, message identifiers and sequences, Artifact, Submission and receipt identifiers stay unique, final rows stay as written, and Tasks and Artifacts keep their identity and content |
| `Transactions.IdentifiersAreUnique` | humantest/agent_store_memory.go:175-203 | so every store that any transactions build from the empty one has unique identifiers |
| `MemoryStore.AgentStore.Begin` | humantest/agent_commit_unknown.go:61-64 | opens a copy, or loses the Update before it starts |
| `MemoryStore.AgentStore.End` | humantest/agent_store_memory.go:193-203 | keeps nothing of a failed callback and everything of a successful one, acknowledged or not |
| `AgentCore.LoadTask` | agent/store_core.go:32-52 | fails closed on any bad row; on a sound store never |
| `AgentCore.VerifyGrant` | agent/store_core.go:203-218 | missing history is stale, differing history is corrupt; on a sound store success means the grant is recorded |
| `AgentCore.VerifyArtifactGrant` | agent/artifact.go:516-541 | success means the grant is recorded as given, its Task exists and it is not older than its Task; on a sound store a well-formed grant passes exactly if it is recorded |
| `AgentCore.RequireCurrentLease` | agent/store_core.go:220-232 | agrees with the specified lease check, error by error |
| `AgentCore.CheckHistoryHead` | agent/store_core.go:238-265 | on a sound store passes and returns the time of the last grant |
| `AgentCore.RequireArtifactLease` | agent/artifact.go:543-590 | on a sound store passes exactly for the current grant and otherwise reports it stale |
| `AgentCore.LoadArtifact` | agent/artifact.go:458-478 | fails closed on any bad row; on a sound store never |
| `AgentCore.LoadVerifiedReceipt` | agent/artifact.go:498-514 | returns a receipt only with the published Artifact it matches; on a sound store never corrupt |
| `AgentCore.LoadHead` | agent/artifact.go:592-606 | fails closed on any bad head; on a sound store never |
| `AgentCore.Replay` | agent/store_core.go:103-143 | on a sound store: nothing found, the recorded answer, or an identifier conflict; never corruption |
| `AgentCore.CheckAnswer` | agent/artifact.go:315-337 | every re-check of a replayed answer passes on a sound store, the grant of a frozen Artifact and its age included |
| `AgentCommands.CreateIn` | agent/agent.go:407-457 | the step-by-step creation refuses with the specified error or leaves exactly the specified writes |
| `AgentCommands.CheckTransitionEntry` | agent/agent.go:647-704 | the checks before the swap give the specified error, in order |
| `AgentCommands.WriteTransition` | agent/agent.go:739-799 | message, Artifact, Submission, event and receipt are written exactly, or the specified conflict is returned |
| `AgentCommands.TransitionIn` | agent/agent.go:629-804 | the step-by-step transition refines its specification |
| `AgentCommands.FreezeIn` | agent/artifact.go:119-250 | the step-by-step freeze refines its specification |
| `AgentCommands.AcquireIn` | agent/lease.go:56-112 | the step-by-step acquisition refines its specification |
| `AgentCommands.ClaimIn` | agent/dispatch.go:56-118 | the step-by-step claim leases the oldest claimable Task and refines its specification |
| `AgentCommands.FenceIn` | agent/lease.go:159-191 | the step-by-step fencing refines its specification |
| `AgentCommands.WriteReceipt` | agent/artifact.go:372-394 | a success needs and moves the confirmed base; the receipt is stored once |
| `AgentCommands.ReceiptIn` | agent/artifact.go:339-403 | the step-by-step receipt refines its specification |
| `Agent.Transact` | agent/agent.go:629-645 | the body of an Update answers and writes exactly as specified |
| `Agent.Agent.Do` | agent/agent.go:569-809 | a public call does exactly what the specification says under the fault it meets, keeps the store sound, and leads from a reachable store to a reachable store |
| `Transport.EventCommandValid` | agent/transport.go:251-309 | every well-formed worker event is a well-formed command under its own identifier |
| `Transport.EventCommandInjective` | agent/worker_endpoint.go:641-680 | two events that ask for the same command are equal |
| `Journal.FailureLeavesNoTrace` | humantest/agent_worker_journal.go:585-594 | a refused journal operation, exhaustion included, could as well never have been tried |
| `Journal.JournalConserves` | humantest/agent_worker_journal.go:282-526 | in every run from the empty journal numbers are unique and new ones larger, each event is in exactly one of pending, acknowledged, rejected, a rejection exists exactly for a rejecting settlement, and later operations keep digests and pending contents and bring nothing settled back |
| `Journal.OutboxChangesIff` | humantest/agent_worker_journal.go:362-476 | an event enters the outbox if and only if it is put there whole, for this authority, while numbers are left, and is settled if and only if a receipt arrives that names it and its event and fits its decision |
| `Journal.RejectionKept` | humantest/agent_worker_journal.go:425-476 | a settling receipt leaves its digest, and a rejecting one keeps delivery and receipt under the next number |
| `Journal.InboxChangesIff` | humantest/agent_worker_journal.go:282-330 | assignments enter exactly by being put there for this worker; assignments and rejections stay until their own identifier is confirmed |
| `Journal.PutAgain` | humantest/agent_worker_journal.go:362-393 | putting an event again tells whether it is still pending; another event under its identifier is a conflict |
| `Journal.MemoryJournal.AllocateSequence` | humantest/agent_worker_journal.go:585-594 | the next number, or nothing at the end of the range |
| `Journal.MemoryJournal.PutAssignment` | humantest/agent_worker_journal.go:282-313 | refines the specified operation |
| `Journal.MemoryJournal.ConfirmAssignment` | humantest/agent_worker_journal.go:315-330 | refines the specified operation |
| `Journal.MemoryJournal.PutEvent` | humantest/agent_worker_journal.go:362-393 | refines the specified operation |
| `Journal.MemoryJournal.SettleEvent` | humantest/agent_worker_journal.go:425-476 | refines the specified operation, undoing the settlement when no number is left |
| `Journal.MemoryJournal.ConfirmRejection` | humantest/agent_worker_journal.go:511-526 | refines the specified operation |
| `Journal.MemoryJournal.ListEvents` | humantest/agent_worker_journal.go:395-423 | a page is the beginning of the one numbered list of waiting events |
| `Journal.DrainOutbox` | humantest/llm_worker_journal.go:51-88 | reading until an empty page returns every waiting event once, in order, as many as wait, however short the pages |
| `Endpoint.RememberKeeps` | agent/worker_endpoint.go:623-639 | the receipt cache keeps its bound, stores what it is given, alters no other entry, and forgets exactly the oldest one, only when it is full and the identifier is new |
| `Endpoint.AnswerIsRepeated` | agent/worker_endpoint.go:569-639 | a connection repeats its first answer to a delivery exactly, without touching the store, as long as fewer than 4096 later deliveries are answered anew, and forgets it with the 4096th |
| `Endpoint.Connection.RememberReceipt` | agent/worker_endpoint.go:623-639 | refines the specified cache update |
| `Endpoint.Connection.CommitEvent` | agent/worker_endpoint.go:547-621 | store, cache and reply are exactly as specified, under the fault the call meets |
| `Outcomes.CommittedTookEffect` | agent/worker_endpoint.go:641-680 | each kind of worker event, once committed, has left the event, content and state of that kind in the store, exactly once |
| `Outcomes.AcknowledgedTookEffect` | agent/worker_endpoint.go:571-588 | an acknowledgement given by a commit means that the event took this effect |
| `Outcomes.RejectionIsJustified` | agent/worker_endpoint.go:689-712 | a rejection code is true of the event and the store it met: stale only if the grant is not current, revision only if it differs, state only if the Task does not accept this kind of event, and so on for every code |
| `DeliverySystem.AckSoundness` | agent/worker_endpoint.go:547-639 | for any loss, duplication, reordering, reconnect, eviction and ambiguous commit, an entry settled without rejection has its exact input committed and its effect in the store: the event of its kind at the revision after the expected one, its message word for word, its Submission or frozen Artifact, under the worker's own grant, and produced by no other command |
| `DeliverySystem.AckIsPermanent` | agent/worker_endpoint.go:589-602 | a committed event is acknowledged again after eviction or reconnect, or its attempt fails without an answer; it is never refused |
| `DeliverySystem.ErrorSettlesNothing` | agent/transport.go:134-139 | an error moves neither journal nor cache nor receipts |
| `DeliverySystem.SettledWasAnswered` | agent/worker_endpoint.go:597-620 | in every run a settled entry was settled by a receipt some delivery of it returned, and has a rejection exactly if that receipt rejects; errors leave it pending |
| `DeliverySystem.AckNamesTheEntry` | agent/transport.go:350-378 | an acknowledgement from the wire names an entry whose exact input has landed |
| `DeliverySystem.ForeignFenceNeverSettles` | agent/worker_endpoint.go:689-712 | an event with another worker's fence is neither acknowledged nor refused |
| `DeliverySystem.NoAnswerIff` | agent/worker_endpoint.go:547-621 | in a reachable store a delivery ends in an error if and only if the cache does not know it, it is well-formed, belongs to the authority, and presents another worker's fence or meets a lost or unacknowledged commit; every other delivery is answered |
| `DeliverySystem.RoundTripSettlesIff` | agent/worker_endpoint.go:571-621 | after any system run, one faultless delivery and its receipt settle an unanswered outbox entry if and only if it does not present another worker's fence |
| `DeliverySystem.StuckOutboxIsReachable` | agent/store_core.go:214 | three moves reach an outbox whose entry presents another worker's fence |
| `DeliverySystem.ForeignFenceStaysInOutbox` | agent/worker_endpoint.go:610-620 | over whole runs: such an entry is still pending, unacknowledged and unrejected, in every continuation in which its identifier stays unused and its seals fit |
| `Ordering.SortedUnique` | humantest/agent_store_memory.go:401 | a set has one sorted listing, whatever order the map was walked in |
| `Ordering.RestIsSuffix` | agent/query.go:173-216 | what lies behind the cursor of an element is what follows it in the one sorted listing |
| `Ordering.CutToBudget` | humantest/agent_store_memory.go:479-496 | the longest prefix that fits the byte budget, or an error for an oversized first record |
| `Ordering.AffordableIsLongest` | humantest/agent_store_memory.go:479-496 | a prefix is returned exactly as long as its total size stays within the budget |
| `Paging.ScanMessages` | humantest/agent_store_memory.go:460-497 | sorted, cut to the limit and then to the budget |
| `Paging.ListMessages` | agent/agent.go:892-968 | a page is the next selection of the history, every record passes the checks made on opening it, the page says truthfully whether more follows, and a sound store never reports corruption |
| `Paging.SelectedProgress` | agent/protection.go:39-46 | every stored message fits the budget, so no page before the end is empty |
| `Paging.ReadAllMessages` | agent/agent.go:924-952 | on any reachable store, following the cursor of ListMessages from 0 reads messages 1..MessageCount once each, in order, within MessageCount pages |
| `Paging.HistoryUnique` | humantest/agent_store_memory.go:602-617 | a Task has one message history, however it was read |
| `Streaming.ScanEvents` | humantest/agent_store_memory.go:499-522 | the next slice of the log |
| `Streaming.ReadEvents` | agent/agent.go:970-1031 | a page is the next slice without gap, with a truthful continuation, and never reports corruption on a sound store |
| `Streaming.TailEvents` | a2a/stream.go:11-52 | for every interleaving of commits with polls each event is emitted once, in order, without gap; whatever any poll finds committed has arrived once the pages it needs are read; the stream ends at the first rejected, canceled, failed or completed event, or input request where asked, and nowhere before |
| `Streaming.SnapshotThenTail` | agent/query.go:107-132 | a snapshot and the events streamed after it tell the same story as the log |
| `Queries.ScanAuthorityTasks` | humantest/agent_store_memory.go:429-458 | one page behind the cursor of the one sorted list of matches, and the count of all matches |
| `Queries.ListAuthorityTasks` | agent/query.go:137-222 | the core's own order and filter checks accept every page; the total ignores the cursor |
| `Queries.ReadAllTasks` | agent/query.go:173-222 | chained calls, each with the cursor the one before returned, read exactly the Tasks asked for, once each, most recently updated first, as many records as there are matches; every such cursor is accepted |
| `Leases.ScanLeases` | humantest/agent_store_memory.go:524-550 | the worker's current leases after the cursor, oldest grant first |
| `Leases.ListLeases` | agent/lease.go:225-307 | every check on a listed lease passes on a sound store; pages are cut from one listing |
| `Leases.HeldIsFilter` | humantest/agent_store_memory.go:803-817 | filtering by the cursor before or after sorting gives the same listing |
| `Leases.ReadAllLeases` | agent/worker_endpoint.go:380-414 | chained calls, each with the cursor the one before returned, read exactly the Tasks the worker holds, each with its current grant, once each, oldest grant first, as many as are held; every such cursor is accepted |
| `Sends.SendsConverge` | a2a/request_handler.go:283-330 | under every interleaving of sends of one message, with any resolver answers and faults, all successes name the same Task, which holds the message |
| `Sends.OneTaskPerRequest` | humantest/agent_store_memory.go:570-574 | at most one Task ever carries the derived identifier |
| `Sends.RetryFindsTask` | a2a/request_handler.go:373-403 | after one success every repetition finds the same Task at once |
| `Sends.LookFindsIff` | a2a/request_handler.go:373-403 | looking finds a Task if and only if it serves the request, and misses only a message that is not there |
| `Sends.UndisturbedSend` | a2a/request_handler.go:283-330 | a send that nothing disturbs ends with the Task that serves it, with an error if its message identifier serves something else, or with the new Task exactly if the creation may commit |
| `Sends.LoserRecovers` | a2a/request_handler.go:311-323 | a send that lost the race finds the winner's Task |
| `Sends.CancelWithRetry` | a2a/request_handler.go:541-592 | success means this Task is canceled, in the answer and in the store; missing and terminal are reported only if true; a lost race is given up only when no traffic is left, and then only for an exhausted revision counter; undisturbed and without a fault it succeeds whenever the cancellation may commit |
| `Lifecycle.GateStepOk` | agent/agent.go:272-297 | the drained signal rises exactly when the gate is closed with nothing active, a closed gate admits nothing, and an open one counts each entry and each end exactly once |
| `Lifecycle.AdmissionGate.Admit` | agent/worker_endpoint.go:327-335 | admits unless closed, and refines the specified move |
| `Lifecycle.AdmissionGate.End` | agent/worker_endpoint.go:337-346 | ends one operation and raises the signal when it was the last of a closed gate |
| `Lifecycle.AdmissionGate.Shut` | agent/worker_endpoint.go:315-325 | closes and raises the signal when nothing is active |
| `Lifecycle.ReleaseOnce` | framework/resource.go:85-105 | a release begins once, and the value is unavailable from then on |
| `Lifecycle.OwnedResource.Release` | framework/resource.go:85-105 | the callback runs at most once |
| `Lifecycle.OwnedResource.Value` | framework/resource.go:65-76 | the value is handed out exactly as long as the release callback was never invoked |
| `Lifecycle.ReleasedForGood` | framework/resource.go:65-105 | in every sequence of releases the callback is invoked at most once, and the value is available exactly until the first release begins |
| `Lifecycle.DrainBeforeRelease` | agent/agent.go:299-334 | in every interleaving the signal rises at most once and only with nothing active, nothing is admitted later, and each resource begins release after it, at most once, protector first; after it two steps of the shutdown begin both |
| `Lifecycle.OneLiveConnection` | agent/worker_endpoint.go:125-177 | a worker never has two connections that are not drained |
| `Lifecycle.ReconnectsIff` | agent/worker_endpoint.go:125-177 | a worker gets a fresh connection if and only if every connection it had was removed, which it can be exactly once it is drained |
| `LlmStore.RunKeeps` | humantest/llm_store_memory.go:581-803 | every sequence of transactions keeps the uniqueness rules and the codec of each Task in its requests; identities and receipts stay, payloads are fixed until pruned, pruning is permanent, and every single event stays as written unless its request was pruned |
| `LlmStore.AppliedIff` | humantest/llm_store_memory.go:581-803 | an operation is accepted if and only if it fits the rows that are there, and then its row is stored; otherwise nothing changes |
| `LlmStore.LookupsAreFunctions` | humantest/llm_store_memory.go:263-294 | at most one open tool-tier Task per affinity and one incomplete request per Task in every reachable state |
| `LlmStore.LlmUnit.FindOpenTask` | humantest/llm_store_memory.go:263-279 | returns an open tool-tier Task with this affinity, or there is none |
| `LlmStore.LlmUnit.FindActiveRequest` | humantest/llm_store_memory.go:281-294 | returns an incomplete request of the Task, or there is none |
| `LlmStore.LlmUnit.PutTask` | humantest/llm_store_memory.go:581-601 | refines the specified operation |
| `LlmStore.LlmUnit.CompareAndSwapTask` | humantest/llm_store_memory.go:603-630 | refines the specified operation |
| `LlmStore.LlmUnit.PutRequest` | humantest/llm_store_memory.go:632-660 | refines the specified operation |
| `LlmStore.LlmUnit.CompareAndSwapRequest` | humantest/llm_store_memory.go:662-699 | refines the specified operation |
| `LlmStore.LlmUnit.PutEvent` | humantest/llm_store_memory.go:701-727 | refines the specified operation |
| `LlmStore.LlmUnit.PutReceipt` | humantest/llm_store_memory.go:729-745 | refines the specified operation |
| `LlmStore.LlmUnit.DeleteEvents` | humantest/llm_store_memory.go:786-803 | deletes events only behind a tombstone |
| `LlmStore.IsUnacknowledged` | humantest/llm_store_memory.go:568-579 | true exactly when some worker event lacks its exact receipt |
| `LlmStore.ScanRecovery` | humantest/llm_store_memory.go:480-532 | a recovery page makes progress or reports the oversized first record |
| `LlmStore.ReadAllCandidates` | humantest/llm_store_memory.go:480-532 | recovery read to an empty page, each page with the cursor of the last record, returns exactly the requests that are open or whose worker lacks an exact receipt, unless quarantined, once each, oldest first, as many as there are, or stops with the size error exactly at the first candidate that alone exceeds the budget |
| `LlmStore.RecoveryAfterIsSuffix` | humantest/llm_store_memory.go:965-983 | what a cursor selects is the part of the one sorted listing that follows its record |

## Left out

- JSON, base64, MIME grammar and SHA-256: content is opaque, digests are injective; media types are checked for shape only, and only blanks count as surrounding space.
- Sealing of content: only the encoded size, which may be anything, enters; opening sealed values and the protection envelope are not part of this model.
- The byte limit on a stored command result: results are a few kilobytes and the limit is four megabytes.
- Store handles, image reopening and abandonment, context cancellation, nil arguments: they only add error returns.
- SQLite adapters and physical durability.
- HTTP, SSE, Agent Card, authentication, content conversion and output modes of the A2A front end; the reply path of message acceptance, which repeats the pattern of the taskless path with a Task identifier.
- Assignment redelivery, its timing and its tombstones in the worker endpoint; the journal's assignment operations are modelled, ListAssignments and ListRejections repeat ListEvents.
- Task listing by context (agent/agent.go:835-890), which repeats the authority listing with another order; GetTask, GetMessage, GetArtifact, GetLease, GetApplyReceipt, which are single checked loads.
- Tool executions, retention scans, response-event scans and store binding of the LLM store; its Task state is reduced to whether it is terminal.
- Timers, poll intervals, release timeouts: any step may come at any time, and nothing is claimed about progress in time.
- Sends.CancelWithRetry: says nothing about its other errors, because racing cancels share one command identifier; the other traffic it retries against is a finite list, and the loop gives up with the revision conflict when the list is exhausted.
- Workspace head update times: nothing is claimed, because the code gives them no floor.
- Rejections: only acknowledgements are permanent; a rejection is repeated exactly while the connection caches it (`Endpoint.AnswerIsRepeated`), and nothing is claimed about it after that.
